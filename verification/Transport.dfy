/** Messages between the framed stream and its callers (src/jsonl.rs
    read_response_dispatching_requests, read_next_message, push_pending,
    remove_pending). A call reads past unrelated messages: it hands server
    requests to the client at once and keeps the rest, in order, within bounds.
    Reads and handlers may fail at any point; sizes are an arbitrary function. */
module Transport {
  import opened Basics
  import opened Text
  import opened Json
  import opened Writing

  const MAX_PENDING_MESSAGES := 128
  const MAX_PENDING_BYTES := 2097152

  predicate IsRequest(v: Json) {
    v.Get("id").Some? && v.Get("method").Some?
  }

  /** A response carrying an id of the kind calls use. */
  predicate IsResponse(v: Json) {
    v.Get("method").None? && v.Get("id").Some? && v.Get("id").value.IsU64()
  }

  predicate Answers(v: Json, id: nat) {
    IsResponse(v) && v.Get("id").value.n == id
  }

  /** Neither: what a call keeps for later. */
  predicate IsNotice(v: Json) {
    !IsRequest(v) && !IsResponse(v)
  }

  /** The two kinds of message a client is given in the order they were sent. */
  datatype Kind = Request | Notice

  predicate Is(k: Kind, v: Json) {
    if k.Request? then IsRequest(v) else IsNotice(v)
  }

  function Only(k: Kind, s: seq<Json>): seq<Json> {
    if s == [] then [] else if Is(k, s[0]) then [s[0]] + Only(k, s[1..]) else Only(k, s[1..])
  }

  lemma {:induction false} OnlyConcat(k: Kind, a: seq<Json>, b: seq<Json>)
    ensures Only(k, a + b) == Only(k, a) + Only(k, b)
  {
    if a == [] {
      assert a + b == b;
    } else {
      assert (a + b)[1..] == a[1..] + b;
      OnlyConcat(k, a[1..], b);
    }
  }

  function OneOf(k: Kind, v: Json): seq<Json> {
    if Is(k, v) then [v] else []
  }

  lemma OnlyOne(k: Kind, v: Json)
    ensures Only(k, [v]) == OneOf(k, v)
  {
    assert [v][1..] == [];
  }

  lemma {:induction false} OnlyNone(k: Kind, s: seq<Json>)
    requires forall v :: v in s ==> !Is(k, v)
    ensures Only(k, s) == []
  {
    if s != [] {
      forall v | v in s[1..] ensures v in s { }
      OnlyNone(k, s[1..]);
    }
  }

  type Size = Json -> nat

  function TotalSize(size: Size, s: seq<Json>): nat {
    if s == [] then 0 else size(s[0]) + TotalSize(size, s[1..])
  }

  lemma {:induction false} TotalSizeConcat(size: Size, a: seq<Json>, b: seq<Json>)
    ensures TotalSize(size, a + b) == TotalSize(size, a) + TotalSize(size, b)
  {
    if a == [] {
      assert a + b == b;
    } else {
      assert (a + b)[1..] == a[1..] + b;
      TotalSizeConcat(size, a[1..], b);
    }
  }

  function Without<T>(s: seq<T>, i: nat): seq<T>
    requires i < |s|
  {
    s[..i] + s[i + 1..]
  }

  lemma Parts<T>(s: seq<T>, i: nat)
    requires i < |s|
    ensures s == s[..i] + ([s[i]] + s[i + 1..])
  {
  }

  lemma RemoveSize(size: Size, s: seq<Json>, i: nat)
    requires i < |s|
    ensures TotalSize(size, s) == TotalSize(size, Without(s, i)) + size(s[i])
  {
    var a, v, b := s[..i], s[i], s[i + 1..];
    Parts(s, i);
    TotalSizeConcat(size, a, [v] + b);
    TotalSizeConcat(size, a, b);
    assert ([v] + b)[1..] == b;
  }

  lemma RemoveMember<T>(s: seq<T>, i: nat)
    requires i < |s|
    ensures multiset(s) == multiset(Without(s, i)) + multiset{s[i]}
  {
    Parts(s, i);
  }

  /** Taking the first of a kind out, or one of another kind. */
  lemma RemoveFirst(k: Kind, s: seq<Json>, i: nat)
    requires i < |s|
    requires Is(k, s[i]) ==> forall j :: 0 <= j < i ==> !Is(k, s[j])
    ensures Only(k, s) == OneOf(k, s[i]) + Only(k, Without(s, i))
  {
    var a, v, b := s[..i], s[i], s[i + 1..];
    Parts(s, i);
    OnlyConcat(k, a, [v] + b);
    OnlyConcat(k, a, b);
    OnlyConcat(k, [v], b);
    OnlyOne(k, v);
    if Is(k, v) { OnlyNone(k, a); }
  }

  lemma AddOne(size: Size, s: seq<Json>, v: Json)
    ensures TotalSize(size, s + [v]) == TotalSize(size, s) + size(v)
    ensures multiset(s + [v]) == multiset(s) + multiset{v}
  {
    TotalSizeConcat(size, s, [v]);
    assert [v][1..] == [];
  }

  lemma Appended(k: Kind, s: seq<Json>, v: Json)
    ensures multiset(s + [v]) == multiset(s) + multiset{v} && Only(k, s + [v]) == Only(k, s) + OneOf(k, v)
  {
    OnlyConcat(k, s, [v]);
    OnlyOne(k, v);
  }

  /** Where the messages read so far are, and the requests among those that left
      for the client, in the order they left. */
  datatype Books = Books(pending: seq<Json>, answered: seq<Json>, handled: seq<Json>, delivered: seq<Json>, lost: seq<Json>, asked: seq<Json>) {
    ghost function Total(): multiset<Json> {
      multiset(pending) + multiset(answered) + multiset(handled) + multiset(delivered) + multiset(lost)
    }

    /** A call handles one request. */
    function Handle(v: Json): Books {
      this.(handled := handled + [v], asked := asked + [v])
    }

    /** A message goes to the client. */
    function Deliver(v: Json): Books {
      this.(delivered := delivered + [v], asked := asked + OneOf(Request, v))
    }

    function Lose(v: Json): Books {
      this.(lost := lost + [v])
    }
  }

  /** The messages of a kind that left for the client. */
  function Gone(k: Kind, b: Books): seq<Json> {
    if k.Request? then b.asked else Only(Notice, b.delivered)
  }

  /** Those that left, those pending, and one in hand: a request in hand comes
      before the pending ones, a notice after them. */
  function Line(k: Kind, b: Books, hand: seq<Json>): seq<Json> {
    Gone(k, b) + if k.Request? then hand + Only(k, b.pending) else Only(k, b.pending) + hand
  }

  lemma EmptyHand(k: Kind, b: Books)
    ensures Line(k, b, []) == Gone(k, b) + Only(k, b.pending)
  {
  }

  lemma NonePending(k: Kind, b: Books, hand: seq<Json>)
    requires b.pending == []
    ensures Line(k, b, hand) == Gone(k, b) + hand
  {
  }

  ghost predicate Bounded(size: Size, pending: seq<Json>, pendingBytes: nat) {
    pendingBytes == TotalSize(size, pending) <= MAX_PENDING_BYTES && |pending| <= MAX_PENDING_MESSAGES
  }

  /** Unless one of the kind was lost, those gone, pending, in hand and unread are
      those of the stream, in order. */
  ghost predicate InOrder(k: Kind, wire: seq<Json>, pos: nat, b: Books, hand: seq<Json>)
    requires pos <= |wire|
  {
    Only(k, b.lost) == [] ==> Line(k, b, hand) + Only(k, wire[pos..]) == Only(k, wire)
  }

  /** Every message read is in exactly one place, and both kinds are in order. */
  ghost predicate Kept(wire: seq<Json>, pos: nat, b: Books) {
    && pos <= |wire|
    && multiset(wire[..pos]) == b.Total()
    && multiset(b.asked) == multiset(b.handled) + multiset(Only(Request, b.delivered))
    && InOrder(Request, wire, pos, b, []) && InOrder(Notice, wire, pos, b, [])
  }

  /** As `Kept`, with one message `v` in hand. */
  ghost predicate Holding(wire: seq<Json>, pos: nat, b: Books, v: Json) {
    && pos <= |wire|
    && multiset(wire[..pos]) == b.Total() + multiset{v}
    && multiset(b.asked) == multiset(b.handled) + multiset(Only(Request, b.delivered))
    && InOrder(Request, wire, pos, b, OneOf(Request, v)) && InOrder(Notice, wire, pos, b, OneOf(Notice, v))
  }

  // ---------------------------------------------------------------------------
  // Moving one message.

  lemma ReadOne(wire: seq<Json>, pos: nat)
    requires pos < |wire|
    ensures multiset(wire[..pos + 1]) == multiset(wire[..pos]) + multiset{wire[pos]}
  {
    assert wire[..pos + 1] == wire[..pos] + [wire[pos]];
  }

  lemma ReadInOrder(k: Kind, wire: seq<Json>, pos: nat, b: Books)
    requires pos < |wire| && InOrder(k, wire, pos, b, [])
    requires k.Request? && IsRequest(wire[pos]) ==> Only(Request, b.pending) == []
    ensures InOrder(k, wire, pos + 1, b, OneOf(k, wire[pos]))
  {
    assert wire[pos..] == [wire[pos]] + wire[pos + 1..];
    OnlyConcat(k, [wire[pos]], wire[pos + 1..]);
    OnlyOne(k, wire[pos]);
    assert Line(k, b, []) + OneOf(k, wire[pos]) == Line(k, b, OneOf(k, wire[pos]));
    Regroup(Line(k, b, []), OneOf(k, wire[pos]), Only(k, wire[pos + 1..]));
  }

  lemma Regroup(a: seq<Json>, b: seq<Json>, c: seq<Json>)
    ensures a + (b + c) == a + b + c
  {
  }

  lemma HoldRead(wire: seq<Json>, pos: nat, b: Books)
    requires Kept(wire, pos, b) && pos < |wire| && (IsRequest(wire[pos]) ==> Only(Request, b.pending) == [])
    ensures Holding(wire, pos + 1, b, wire[pos])
  {
    ReadOne(wire, pos);
    ReadInOrder(Request, wire, pos, b);
    ReadInOrder(Notice, wire, pos, b);
  }

  lemma HoldRemoved(wire: seq<Json>, pos: nat, b: Books, i: nat)
    requires Kept(wire, pos, b) && i < |b.pending| && !IsNotice(b.pending[i])
    requires IsRequest(b.pending[i]) ==> forall j :: 0 <= j < i ==> !IsRequest(b.pending[j])
    ensures Holding(wire, pos, b.(pending := Without(b.pending, i)), b.pending[i])
  {
    RemovedTotal(b, i);
    RemovedLine(Request, b, i);
    RemovedLine(Notice, b, i);
  }

  lemma RemovedTotal(b: Books, i: nat)
    requires i < |b.pending|
    ensures b.Total() == b.(pending := Without(b.pending, i)).Total() + multiset{b.pending[i]}
  {
    RemoveMember(b.pending, i);
  }

  lemma RemovedLine(k: Kind, b: Books, i: nat)
    requires i < |b.pending| && !IsNotice(b.pending[i])
    requires Is(k, b.pending[i]) ==> forall j :: 0 <= j < i ==> !Is(k, b.pending[j])
    ensures Line(k, b, []) == Line(k, b.(pending := Without(b.pending, i)), OneOf(k, b.pending[i]))
  {
    RemoveFirst(k, b.pending, i);
  }

  lemma PlaceAnswered(wire: seq<Json>, pos: nat, b: Books, v: Json)
    requires Holding(wire, pos, b, v) && !IsNotice(v) && !IsRequest(v)
    ensures Kept(wire, pos, b.(answered := b.answered + [v]))
  {
    Appended(Notice, b.answered, v);
  }

  lemma PlaceHandled(wire: seq<Json>, pos: nat, b: Books, v: Json)
    requires Holding(wire, pos, b, v) && IsRequest(v)
    ensures Kept(wire, pos, b.Handle(v))
  {
    Appended(Request, b.handled, v);
    EmptyHand(Request, b.Handle(v));
    Regroup(b.asked, [v], Only(Request, b.pending));
    assert Line(Request, b, OneOf(Request, v)) == b.asked + ([v] + Only(Request, b.pending));
  }

  lemma PlaceLost(wire: seq<Json>, pos: nat, b: Books, v: Json)
    requires Holding(wire, pos, b, v)
    ensures Kept(wire, pos, b.Lose(v))
  {
    Appended(Request, b.lost, v);
    Appended(Notice, b.lost, v);
  }

  lemma PlacePending(wire: seq<Json>, pos: nat, b: Books, v: Json)
    requires Holding(wire, pos, b, v) && !IsRequest(v)
    ensures Kept(wire, pos, b.(pending := b.pending + [v]))
  {
    var next := b.(pending := b.pending + [v]);
    Appended(Request, b.pending, v);
    Appended(Notice, b.pending, v);
    assert Line(Notice, next, []) == Line(Notice, b, OneOf(Notice, v));
    assert Line(Request, next, []) == Line(Request, b, []);
  }

  lemma DeliveredOrder(b: Books, v: Json)
    ensures multiset(b.asked) == multiset(b.handled) + multiset(Only(Request, b.delivered)) ==>
              multiset(b.Deliver(v).asked) == multiset(b.handled) + multiset(Only(Request, b.Deliver(v).delivered))
    ensures forall k :: Gone(k, b.Deliver(v)) == Gone(k, b) + OneOf(k, v)
  {
    Appended(Request, b.delivered, v);
    Appended(Notice, b.delivered, v);
  }

  lemma DeliveredLine(k: Kind, b: Books, v: Json)
    requires b.pending == []
    ensures Line(k, b.Deliver(v), []) == Line(k, b, OneOf(k, v))
  {
    DeliveredOrder(b, v);
    NonePending(k, b, OneOf(k, v));
    NonePending(k, b.Deliver(v), []);
  }

  lemma PlaceDelivered(wire: seq<Json>, pos: nat, b: Books, v: Json)
    requires Holding(wire, pos, b, v) && b.pending == []
    ensures Kept(wire, pos, b.Deliver(v))
  {
    DeliveredOrder(b, v);
    Appended(Notice, b.delivered, v);
    DeliveredLine(Request, b, v);
    DeliveredLine(Notice, b, v);
  }

  lemma DeliverFirst(wire: seq<Json>, pos: nat, b: Books)
    requires Kept(wire, pos, b) && b.pending != []
    ensures Kept(wire, pos, b.(pending := Without(b.pending, 0)).Deliver(b.pending[0]))
  {
    var v := b.pending[0];
    var rest := b.(pending := Without(b.pending, 0));
    RemovedTotal(b, 0);
    DeliveredOrder(rest, v);
    Appended(Notice, b.delivered, v);
    FirstLine(Request, b);
    FirstLine(Notice, b);
  }

  lemma FirstLine(k: Kind, b: Books)
    requires b.pending != []
    ensures Line(k, b.(pending := Without(b.pending, 0)).Deliver(b.pending[0]), []) == Line(k, b, [])
  {
    var rest := b.(pending := Without(b.pending, 0));
    RemoveFirst(k, b.pending, 0);
    DeliveredOrder(rest, b.pending[0]);
    EmptyHand(k, b);
    EmptyHand(k, rest.Deliver(b.pending[0]));
    Regroup(Gone(k, b), OneOf(k, b.pending[0]), Only(k, rest.pending));
  }

  /** Requests and notices each reach the client in the order they were sent, none
      twice; and once everything is read and nothing is pending, all of them did. */
  lemma ArriveInOrder(k: Kind, wire: seq<Json>, pos: nat, b: Books)
    requires Kept(wire, pos, b) && Only(k, b.lost) == []
    ensures Gone(k, b) <= Only(k, wire)
    ensures pos == |wire| && b.pending == [] ==> Gone(k, b) == Only(k, wire)
  {
    EmptyHand(k, b);
    Leads(Gone(k, b), Only(k, b.pending), Only(k, wire[pos..]), Only(k, wire));
    if pos == |wire| && b.pending == [] { assert wire[pos..] == []; }
  }

  lemma Leads(a: seq<Json>, b: seq<Json>, c: seq<Json>, all: seq<Json>)
    requires a + b + c == all
    ensures a <= all && (b == [] && c == [] ==> a == all)
  {
    assert a + (b + c) == all;
  }

  /** Once everything is read, nothing is pending and nothing was lost, each
      message of the stream was returned to a call, handled as a request, or
      delivered, exactly once. */
  lemma EachOnce(wire: seq<Json>, b: Books)
    requires Kept(wire, |wire|, b) && b.pending == [] && b.lost == []
    ensures multiset(wire) == multiset(b.answered) + multiset(b.handled) + multiset(b.delivered)
  {
    assert wire[..|wire|] == wire;
  }

  datatype Outcome = Got(v: Json) | ReadFailed | HandlerFailed | UnexpectedId | PendingFull

  /** What the caller of a call hears. */
  datatype Reply = Result(value: Json) | Remote(id: nat) | NotSent | Failed(outcome: Outcome)

  function ReplyOf(read: Outcome, id: nat): Reply {
    match read
    case Got(v) => if v.Get("error").Some? then Remote(id) else Result(v.Get("result").GetOr(Null))
    case _ => Failed(read)
  }

  /** While a call waits, only server requests leave: to the client, in order. */
  ghost predicate Passed(before: Books, after: Books) {
    && after == before.(pending := after.pending, handled := after.handled, asked := after.asked)
    && before.handled <= after.handled
    && after.asked == before.asked + after.handled[|before.handled|..]
    && forall v :: v in after.handled[|before.handled|..] ==> IsRequest(v)
  }

  /** A call that ends got its own response, and lost nothing; or lost at most
      the one message its error is about. */
  ghost predicate Ended(before: Books, after: Books, id: nat, r: Outcome) {
    match r
    case Got(v) =>
      Answers(v, id) && after.answered == before.answered + [v] && Passed(before, after.(answered := before.answered))
    case ReadFailed => Passed(before, after)
    case _ =>
      exists v :: after.lost == before.lost + [v] && EndsCall(v, id, r) && Passed(before, after.(lost := before.lost))
  }

  /** The message an outcome other than a failing read is about. */
  predicate EndsCall(v: Json, id: nat, r: Outcome) {
    match r
    case Got(w) => v == w && Answers(v, id)
    case UnexpectedId => IsResponse(v) && !Answers(v, id)
    case HandlerFailed => IsRequest(v)
    case PendingFull => IsNotice(v)
    case ReadFailed => false
  }

  lemma PassedNothing(before: Books, pending: seq<Json>)
    ensures Passed(before, before.(pending := pending))
  {
  }

  lemma PassedOne(before: Books, v: Json)
    requires IsRequest(v)
    ensures Passed(before, before.Handle(v))
  {
  }

  lemma PassedTwice(a: Books, b: Books, c: Books)
    requires Passed(a, b) && Passed(b, c)
    ensures Passed(a, c)
  {
    assert c.handled[|a.handled|..] == b.handled[|a.handled|..] + c.handled[|b.handled|..];
    forall v | v in c.handled[|a.handled|..] ensures IsRequest(v) {
      var i :| |a.handled| <= i < |c.handled| && c.handled[i] == v;
      if i < |b.handled| { assert b.handled[|a.handled|..][i - |a.handled|] == v; } else { assert c.handled[|b.handled|..][i - |b.handled|] == v; }
    }
  }

  lemma PassedThenEnded(a: Books, b: Books, c: Books, id: nat, r: Outcome)
    requires Passed(a, b) && Ended(b, c, id, r)
    ensures Ended(a, c, id, r)
  {
    match r
    case Got(_) => PassedTwice(a, b, c.(answered := b.answered));
    case ReadFailed => PassedTwice(a, b, c);
    case _ =>
      var v :| c.lost == b.lost + [v] && EndsCall(v, id, r) && Passed(b, c.(lost := b.lost));
      PassedTwice(a, b, c.(lost := b.lost));
  }

  // ---------------------------------------------------------------------------
  // What becomes of a call, said of the messages it meets.

  /** The pending messages a call leaves alone. */
  function Rest(pending: seq<Json>): seq<Json> {
    if pending == [] then [] else if IsRequest(pending[0]) then Rest(pending[1..]) else [pending[0]] + Rest(pending[1..])
  }

  /** Messages kept, their bytes, and how many requests the client still handles
      before one fails. */
  datatype Load = Load(count: nat, bytes: nat, accepts: nat)

  /** The call ends at message `j`: a response, its own or another; a request the
      client fails on; or a notice there is no room for. */
  ghost predicate Stopper(size: Size, q: seq<Json>, load: Load, j: nat)
    requires j < |q|
  {
    var kept := Only(Notice, q[..j]);
    || IsResponse(q[j])
    || (IsRequest(q[j]) && |Only(Request, q[..j])| >= load.accepts)
    || (IsNotice(q[j]) && (load.count + |kept| >= MAX_PENDING_MESSAGES
                           || load.bytes + TotalSize(size, kept) + size(q[j]) > MAX_PENDING_BYTES))
  }

  ghost predicate StopsAt(size: Size, q: seq<Json>, load: Load, k: int) {
    0 <= k < |q| && Stopper(size, q, load, k) && forall j :: 0 <= j < k ==> !Stopper(size, q, load, j)
  }

  function OutcomeAt(v: Json, id: nat): Outcome {
    if Answers(v, id) then Got(v)
    else if IsResponse(v) then UnexpectedId
    else if IsRequest(v) then HandlerFailed else PendingFull
  }

  /** How a call ends that meets these messages: at the first that ends it, or
      because nothing more can be read. */
  ghost predicate Fate(size: Size, q: seq<Json>, load: Load, id: nat, r: Outcome) {
    if r.ReadFailed? then forall j :: 0 <= j < |q| ==> !Stopper(size, q, load, j)
    else exists k :: StopsAt(size, q, load, k) && r == OutcomeAt(q[k], id)
  }

  function AfterOne(size: Size, load: Load, v: Json): Load {
    if IsRequest(v) then load.(accepts := if load.accepts > 0 then load.accepts - 1 else 0)
    else load.(count := load.count + 1, bytes := load.bytes + size(v))
  }

  /** The message ends the call under this load. */
  predicate Blocks(size: Size, load: Load, v: Json) {
    || IsResponse(v)
    || (IsRequest(v) && load.accepts == 0)
    || (IsNotice(v) && (load.count >= MAX_PENDING_MESSAGES || load.bytes + size(v) > MAX_PENDING_BYTES))
  }

  /** The load after the first `n` messages met. */
  function Loaded(size: Size, load: Load, q: seq<Json>, n: nat): Load
    requires n <= |q|
  {
    if n == 0 then load else AfterOne(size, Loaded(size, load, q, n - 1), q[n - 1])
  }

  /** None of the first `n` messages ends the call. */
  ghost predicate Passes(size: Size, load: Load, q: seq<Json>, n: nat)
    requires n <= |q|
  {
    n == 0 || (Passes(size, load, q, n - 1) && !Blocks(size, Loaded(size, load, q, n - 1), q[n - 1]))
  }

  lemma KeptOne(size: Size, front: seq<Json>, v: Json)
    ensures |Only(Notice, front + [v])| == |Only(Notice, front)| + if IsNotice(v) then 1 else 0
    ensures |Only(Request, front + [v])| == |Only(Request, front)| + if IsRequest(v) then 1 else 0
    ensures TotalSize(size, Only(Notice, front + [v])) == TotalSize(size, Only(Notice, front)) + if IsNotice(v) then size(v) else 0
  {
    Appended(Notice, front, v);
    Appended(Request, front, v);
    TotalSizeConcat(size, Only(Notice, front), OneOf(Notice, v));
    TotalSizeOne(size, v);
  }

  lemma {:induction false} LoadedIs(size: Size, load: Load, q: seq<Json>, n: nat)
    requires n <= |q| && Passes(size, load, q, n)
    ensures var now := Loaded(size, load, q, n);
            && now.count == load.count + |Only(Notice, q[..n])|
            && now.bytes == load.bytes + TotalSize(size, Only(Notice, q[..n]))
            && load.accepts == now.accepts + |Only(Request, q[..n])|
  {
    if n > 0 {
      LoadedIs(size, load, q, n - 1);
      assert q[..n] == q[..n - 1] + [q[n - 1]];
      KeptOne(size, q[..n - 1], q[n - 1]);
    }
  }

  lemma TotalSizeOne(size: Size, v: Json)
    ensures TotalSize(size, [v]) == size(v) && TotalSize(size, []) == 0
  {
    assert [v][1..] == [];
  }

  lemma StopperIsBlock(size: Size, load: Load, q: seq<Json>, n: nat)
    requires n < |q| && Passes(size, load, q, n)
    ensures Stopper(size, q, load, n) <==> Blocks(size, Loaded(size, load, q, n), q[n])
  {
    LoadedIs(size, load, q, n);
  }

  lemma {:induction false} PassesIsNoStopper(size: Size, load: Load, q: seq<Json>, n: nat)
    requires n <= |q| && Passes(size, load, q, n)
    ensures forall j :: 0 <= j < n ==> !Stopper(size, q, load, j)
  {
    if n > 0 {
      PassesIsNoStopper(size, load, q, n - 1);
      StopperIsBlock(size, load, q, n - 1);
    }
  }

  /** After passing some messages a call ends at the next that blocks it, or for
      want of one. */
  lemma FateFrom(size: Size, load: Load, q: seq<Json>, n: nat, id: nat, r: Outcome)
    requires n <= |q| && Passes(size, load, q, n)
    requires if n == |q| then r == ReadFailed else Blocks(size, Loaded(size, load, q, n), q[n]) && r == OutcomeAt(q[n], id)
    ensures Fate(size, q, load, id, r)
  {
    PassesIsNoStopper(size, load, q, n);
    if n < |q| {
      StopperIsBlock(size, load, q, n);
      assert StopsAt(size, q, load, n);
    }
  }

  /** A call has one fate only. */
  lemma FateIsUnique(size: Size, q: seq<Json>, load: Load, id: nat, r: Outcome, other: Outcome)
    requires Fate(size, q, load, id, r) && Fate(size, q, load, id, other)
    ensures r == other
  {
    if !r.ReadFailed? && !other.ReadFailed? {
      var k :| StopsAt(size, q, load, k) && r == OutcomeAt(q[k], id);
      var l :| StopsAt(size, q, load, l) && other == OutcomeAt(q[l], id);
      assert k == l;
    }
  }

  /** The call ends at a message of this kind. */
  ghost predicate EndsAt(size: Size, q: seq<Json>, load: Load, kind: Json -> bool) {
    exists k :: StopsAt(size, q, load, k) && kind(q[k])
  }

  lemma EndsAtOne(size: Size, q: seq<Json>, load: Load, k: int, kind: Json -> bool)
    requires StopsAt(size, q, load, k)
    ensures EndsAt(size, q, load, kind) <==> kind(q[k])
  {
    if EndsAt(size, q, load, kind) {
      var l :| StopsAt(size, q, load, l) && kind(q[l]);
      assert l == k;
    }
  }

  lemma ReplyAt(v: Json, id: nat)
    ensures var r := ReplyOf(OutcomeAt(v, id), id);
            && (r == Remote(id) <==> Answers(v, id) && v.Get("error").Some?)
            && (forall x :: r == Result(x) <==> Answers(v, id) && v.Get("error").None? && v.Get("result").GetOr(Null) == x)
            && (r == Failed(UnexpectedId) <==> IsResponse(v) && !Answers(v, id))
            && (r == Failed(HandlerFailed) <==> IsRequest(v))
            && (r == Failed(PendingFull) <==> IsNotice(v))
            && r != Failed(ReadFailed)
  {
  }

  /** What the caller hears, exactly: the result or the remote error of its own
      response if that ends the call; that an id was not expected if another
      response does; that a handler failed if a request does; that there is no
      room if a notice does; and a failing read if nothing ends it. */
  lemma RepliesExactly(size: Size, q: seq<Json>, load: Load, id: nat, r: Outcome)
    requires Fate(size, q, load, id, r)
    ensures ReplyOf(r, id) == Remote(id) <==> EndsAt(size, q, load, v => Answers(v, id) && v.Get("error").Some?)
    ensures forall x :: ReplyOf(r, id) == Result(x)
                   <==> EndsAt(size, q, load, v => Answers(v, id) && v.Get("error").None? && v.Get("result").GetOr(Null) == x)
    ensures ReplyOf(r, id) == Failed(UnexpectedId) <==> EndsAt(size, q, load, v => IsResponse(v) && !Answers(v, id))
    ensures ReplyOf(r, id) == Failed(HandlerFailed) <==> EndsAt(size, q, load, IsRequest)
    ensures ReplyOf(r, id) == Failed(PendingFull) <==> EndsAt(size, q, load, IsNotice)
    ensures ReplyOf(r, id) == Failed(ReadFailed) <==> !EndsAt(size, q, load, v => true)
  {
    if !r.ReadFailed? {
      var k :| StopsAt(size, q, load, k) && r == OutcomeAt(q[k], id);
      ReplyAt(q[k], id);
      forall kind: Json -> bool ensures EndsAt(size, q, load, kind) <==> kind(q[k]) {
        EndsAtOne(size, q, load, k, kind);
      }
    }
  }

  /** The pending messages that answer the call. */
  function Answering(id: nat, pending: seq<Json>): seq<Json> {
    if pending == [] then []
    else if Answers(pending[0], id) then [pending[0]] + Answering(id, pending[1..])
    else Answering(id, pending[1..])
  }

  /** The messages a call meets: a pending answer at once; else the pending
      requests, and then as many messages of the stream as can be read. */
  function Met(id: nat, pending: seq<Json>, wire: seq<Json>, pos: nat, readable: nat): seq<Json>
    requires pos <= |wire|
  {
    if Answering(id, pending) != [] then [Answering(id, pending)[0]]
    else Only(Request, pending) + wire[pos..Min(pos + readable, |wire|)]
  }

  lemma {:induction false} FirstOf(k: Kind, s: seq<Json>, i: nat)
    requires i < |s| && Is(k, s[i]) && forall j :: 0 <= j < i ==> !Is(k, s[j])
    ensures Only(k, s) == [s[i]] + Only(k, Without(s, i))
  {
    RemoveFirst(k, s, i);
  }

  lemma {:induction false} RestWithout(s: seq<Json>, i: nat)
    requires i < |s| && IsRequest(s[i])
    ensures Rest(Without(s, i)) == Rest(s)
  {
    if i > 0 {
      RestWithout(s[1..], i - 1);
      assert Without(s, i)[1..] == Without(s[1..], i - 1);
    } else {
      assert Without(s, 0) == s[1..];
    }
  }

  lemma {:induction false} RestOfOthers(s: seq<Json>)
    requires forall v :: v in s ==> !IsRequest(v)
    ensures Rest(s) == s
  {
    if s != [] {
      forall v | v in s[1..] ensures v in s { }
      RestOfOthers(s[1..]);
    }
  }

  lemma {:induction false} NoneAnswering(id: nat, s: seq<Json>)
    requires forall v :: v in s ==> !Answers(v, id)
    ensures Answering(id, s) == []
  {
    if s != [] {
      forall v | v in s[1..] ensures v in s { }
      NoneAnswering(id, s[1..]);
    }
  }

  lemma {:induction false} FirstAnswering(id: nat, s: seq<Json>, i: nat)
    requires i < |s| && Answers(s[i], id) && forall j :: 0 <= j < i ==> !Answers(s[j], id)
    ensures Answering(id, s) != [] && Answering(id, s)[0] == s[i]
  {
    if i > 0 { FirstAnswering(id, s[1..], i - 1); }
  }

  function LoadOf(size: Size, pending: seq<Json>, accepts: nat): Load {
    Load(|Rest(pending)|, TotalSize(size, Rest(pending)), accepts)
  }

  lemma MetAnswer(id: nat, pending: seq<Json>, wire: seq<Json>, pos: nat, readable: nat, i: nat)
    requires pos <= |wire| && i < |pending| && Answers(pending[i], id) && forall j :: 0 <= j < i ==> !Answers(pending[j], id)
    ensures Met(id, pending, wire, pos, readable) == [pending[i]]
  {
    FirstAnswering(id, pending, i);
  }

  lemma MetRequest(size: Size, id: nat, pending: seq<Json>, wire: seq<Json>, pos: nat, readable: nat, accepts: nat, i: nat)
    requires pos <= |wire| && i < |pending| && IsRequest(pending[i]) && (forall j :: 0 <= j < i ==> !IsRequest(pending[j]))
    requires forall j :: 0 <= j < |pending| ==> !Answers(pending[j], id)
    ensures Met(id, pending, wire, pos, readable) == [pending[i]] + Met(id, Without(pending, i), wire, pos, readable)
    ensures LoadOf(size, Without(pending, i), accepts) == LoadOf(size, pending, accepts)
  {
    NoneAnswering(id, pending);
    NoneAnswering(id, Without(pending, i));
    FirstOf(Request, pending, i);
    RestWithout(pending, i);
    Regroup([pending[i]], Only(Request, Without(pending, i)), wire[pos..Min(pos + readable, |wire|)]);
  }

  lemma SliceHead(wire: seq<Json>, pos: nat, to: nat)
    requires pos < to <= |wire|
    ensures wire[pos..to] == [wire[pos]] + wire[pos + 1..to]
  {
  }

  lemma MetStream(id: nat, pending: seq<Json>, wire: seq<Json>, pos: nat, readable: nat)
    requires pos <= |wire| && Answering(id, pending) == [] && Only(Request, pending) == []
    ensures Met(id, pending, wire, pos, readable) == wire[pos..Min(pos + readable, |wire|)]
  {
  }

  /** Nothing pending is of use to the call. */
  ghost predicate NoUse(id: nat, pending: seq<Json>) {
    forall j :: 0 <= j < |pending| ==> !Answers(pending[j], id) && !IsRequest(pending[j])
  }

  lemma NoUseOf(id: nat, pending: seq<Json>)
    requires NoUse(id, pending)
    ensures Only(Request, pending) == [] && Rest(pending) == pending && Answering(id, pending) == []
  {
    OnlyNone(Request, pending);
    NoneAnswering(id, pending);
    RestOfOthers(pending);
  }

  lemma MetRead(id: nat, pending: seq<Json>, wire: seq<Json>, pos: nat, readable: nat)
    requires pos <= |wire| && Answering(id, pending) == [] && Only(Request, pending) == []
    ensures Met(id, pending, wire, pos, readable)
         == if readable > 0 && pos < |wire| then [wire[pos]] + Met(id, pending, wire, pos + 1, readable - 1) else []
  {
    MetStream(id, pending, wire, pos, readable);
    if readable > 0 && pos < |wire| {
      SliceHead(wire, pos, Min(pos + readable, |wire|));
      MetStream(id, pending, wire, pos + 1, readable - 1);
    }
  }

  /** Keeping a notice changes the load, not what is met. */
  lemma KeptMeets(size: Size, id: nat, pending: seq<Json>, v: Json, wire: seq<Json>, pos: nat, readable: nat, accepts: nat)
    requires pos <= |wire| && Only(Request, pending) == [] && Rest(pending) == pending && IsNotice(v)
    ensures Met(id, pending + [v], wire, pos, readable) == Met(id, pending, wire, pos, readable)
    ensures LoadOf(size, pending + [v], accepts) == AfterOne(size, LoadOf(size, pending, accepts), v)
  {
    Appended(Request, pending, v);
    AddOne(size, pending, v);
    RestAppend(pending, v);
    AnsweringAppend(id, pending, v);
  }

  lemma {:induction false} RestAppend(s: seq<Json>, v: Json)
    ensures Rest(s + [v]) == Rest(s) + if IsRequest(v) then [] else [v]
  {
    if s == [] {
      assert [v][1..] == [];
    } else {
      assert (s + [v])[1..] == s[1..] + [v];
      RestAppend(s[1..], v);
    }
  }

  lemma {:induction false} AnsweringAppend(id: nat, s: seq<Json>, v: Json)
    requires !Answers(v, id)
    ensures Answering(id, s + [v]) == Answering(id, s)
  {
    if s == [] {
      assert [v][1..] == [];
    } else {
      assert (s + [v])[1..] == s[1..] + [v];
      AnsweringAppend(id, s[1..], v);
    }
  }

  /** What a call looks at: the pending messages, and how far it may read. */
  datatype Desk = Desk(pending: seq<Json>, pos: nat, readable: nat)

  datatype Source = FromPending(i: nat) | FromStream | Nowhere

  /** The pending message to take: the first answer, else the first request. */
  ghost predicate ToTake(id: nat, pending: seq<Json>, i: nat) {
    && i < |pending|
    && if Answers(pending[i], id) then forall j :: 0 <= j < i ==> !Answers(pending[j], id)
       else IsRequest(pending[i]) && (forall j :: 0 <= j < i ==> !IsRequest(pending[j]))
            && forall j :: 0 <= j < |pending| ==> !Answers(pending[j], id)
  }

  /** One message was taken, from where it comes first. */
  ghost predicate Took(id: nat, wire: seq<Json>, before: Desk, after: Desk, r: Option<Json>, src: Source) {
    match src
    case Nowhere => r.None? && after == before && NoUse(id, before.pending) && (before.readable == 0 || before.pos == |wire|)
    case FromStream =>
      && before.readable > 0 && before.pos < |wire| && NoUse(id, before.pending) && r == Some(wire[before.pos])
      && after == before.(pos := before.pos + 1, readable := before.readable - 1)
    case FromPending(i) =>
      ToTake(id, before.pending, i) && r == Some(before.pending[i]) && after == before.(pending := Without(before.pending, i))
  }

  function Meeting(id: nat, wire: seq<Json>, d: Desk): seq<Json>
    requires d.pos <= |wire|
  {
    Met(id, d.pending, wire, d.pos, d.readable)
  }

  /** The message taken is the first the call meets; and unless it answers the
      call, the rest are met after it. */
  lemma TookMeets(size: Size, id: nat, wire: seq<Json>, before: Desk, after: Desk, r: Option<Json>, src: Source, accepts: nat)
    requires before.pos <= |wire| && Took(id, wire, before, after, r, src)
    ensures after.pos <= |wire|
    ensures r.None? ==> Meeting(id, wire, before) == []
    ensures r.Some? ==> Meeting(id, wire, before) != [] && Meeting(id, wire, before)[0] == r.value
    ensures r.Some? && !Answers(r.value, id) ==> Meeting(id, wire, after) == Meeting(id, wire, before)[1..]
    ensures r.Some? && !Answers(r.value, id) ==> LoadOf(size, after.pending, accepts) == LoadOf(size, before.pending, accepts)
    ensures r.Some? && !Answers(r.value, id) && !IsRequest(r.value) ==> Only(Request, after.pending) == [] && Rest(after.pending) == after.pending
  {
    match src
    case FromPending(i) =>
      if Answers(before.pending[i], id) {
        MetAnswer(id, before.pending, wire, before.pos, before.readable, i);
      } else {
        MetRequest(size, id, before.pending, wire, before.pos, before.readable, accepts, i);
      }
    case _ =>
      NoUseOf(id, before.pending);
      MetRead(id, before.pending, wire, before.pos, before.readable);
  }

  /** What one message in hand does, given what is pending when it is placed. */
  ghost predicate Placed(size: Size, id: nat, pending: seq<Json>, bytes: nat, accepts: nat, v: Json,
                         next: seq<Json>, nextAccepts: nat, r: Option<Outcome>) {
    && r == (if Blocks(size, Load(|pending|, bytes, accepts), v) then Some(OutcomeAt(v, id)) else None)
    && (r.None? ==> if IsRequest(v) then next == pending && nextAccepts == accepts - 1 else next == pending + [v] && nextAccepts == accepts)
  }

  /** One step of a call: it ends for want of a message, or by the first it meets,
      or goes on with the rest and that much more load. */
  ghost predicate StepIs(size: Size, id: nat, wire: seq<Json>, before: Desk, accepts: nat, after: Desk, nextAccepts: nat, r: Option<Outcome>)
    requires before.pos <= |wire| && after.pos <= |wire|
  {
    var q, load := Meeting(id, wire, before), LoadOf(size, before.pending, accepts);
    if q == [] then r == Some(ReadFailed)
    else
      && r == (if Blocks(size, load, q[0]) then Some(OutcomeAt(q[0], id)) else None)
      && (r.None? ==> Meeting(id, wire, after) == q[1..] && LoadOf(size, after.pending, nextAccepts) == AfterOne(size, load, q[0]))
  }

  lemma PlacedMeets(size: Size, id: nat, wire: seq<Json>, before: Desk, mid: Desk, after: Desk, accepts: nat, nextAccepts: nat,
                    v: Json, r: Option<Outcome>)
    requires before.pos <= |wire| && mid.pos <= |wire| && after == mid.(pending := after.pending)
    requires Meeting(id, wire, before) != [] && Meeting(id, wire, before)[0] == v
    requires !Answers(v, id) ==> Meeting(id, wire, mid) == Meeting(id, wire, before)[1..]
    requires !Answers(v, id) ==> LoadOf(size, mid.pending, accepts) == LoadOf(size, before.pending, accepts)
    requires !Answers(v, id) && !IsRequest(v) ==> Only(Request, mid.pending) == [] && Rest(mid.pending) == mid.pending
    requires Placed(size, id, mid.pending, TotalSize(size, mid.pending), accepts, v, after.pending, nextAccepts, r)
    ensures StepIs(size, id, wire, before, accepts, after, nextAccepts, r)
  {
    if IsNotice(v) { KeptMeets(size, id, mid.pending, v, wire, mid.pos, mid.readable, accepts); }
  }

  /** What one step does: the message it takes, from where, and what is on the
      desk before that message is placed. */
  datatype Move = Move(taken: Option<Json>, src: Source, mid: Desk)

  ghost predicate Moved(size: Size, id: nat, wire: seq<Json>, before: Desk, accepts: nat, m: Move, after: Desk, nextAccepts: nat,
                        r: Option<Outcome>)
  {
    && Took(id, wire, before, m.mid, m.taken, m.src)
    && match m.taken
       case None => r == Some(ReadFailed)
       case Some(v) =>
         && after == m.mid.(pending := after.pending)
         && Placed(size, id, m.mid.pending, TotalSize(size, m.mid.pending), accepts, v, after.pending, nextAccepts, r)
  }

  lemma MoveOf(size: Size, id: nat, wire: seq<Json>, before: Desk, accepts: nat, m: Move, after: Desk, nextAccepts: nat, r: Option<Outcome>)
    requires Took(id, wire, before, m.mid, m.taken, m.src) && m.taken.Some? && after == m.mid.(pending := after.pending)
    requires Placed(size, id, m.mid.pending, TotalSize(size, m.mid.pending), accepts, m.taken.value, after.pending, nextAccepts, r)
    requires r.None? ==> !Answers(m.taken.value, id)
    ensures Moved(size, id, wire, before, accepts, m, after, nextAccepts, r)
    ensures r.None? ==> before.pos < after.pos || (after.pos == before.pos && |after.pending| < |before.pending|)
  {
  }

  lemma ThenPassed(a: Books, b: Books, c: Books, id: nat, r: Option<Outcome>)
    requires Passed(a, b) && if r.None? then Passed(b, c) else Ended(b, c, id, r.value)
    ensures if r.None? then Passed(a, c) else Ended(a, c, id, r.value)
  {
    if r.Some? { PassedThenEnded(a, b, c, id, r.value); } else { PassedTwice(a, b, c); }
  }

  /** Taking a pending message out changes the pending messages only. */
  lemma TakenThenPlaced(a: Books, b: Books, c: Books, id: nat, r: Option<Outcome>)
    requires b == a.(pending := b.pending)
    requires if r.None? then Passed(b, c) else Ended(b, c, id, r.value)
    ensures if r.None? then Passed(a, c) else Ended(a, c, id, r.value)
  {
    PassedNothing(a, b.pending);
    ThenPassed(a, b, c, id, r);
  }

  lemma MovedIsStep(size: Size, id: nat, wire: seq<Json>, before: Desk, accepts: nat, m: Move, after: Desk, nextAccepts: nat, r: Option<Outcome>)
    requires before.pos <= |wire| && after.pos <= |wire| && Moved(size, id, wire, before, accepts, m, after, nextAccepts, r)
    ensures StepIs(size, id, wire, before, accepts, after, nextAccepts, r)
  {
    TookMeets(size, id, wire, before, m.mid, m.taken, m.src, accepts);
    if m.taken.Some? { PlacedMeets(size, id, wire, before, m.mid, after, accepts, nextAccepts, m.taken.value, r); }
  }

  /** One step of a call, its books and its desk. */
  ghost predicate Stepped(size: Size, id: nat, wire: seq<Json>, was: Books, before: Desk, accepts: nat, m: Move,
                          books: Books, after: Desk, nextAccepts: nat, r: Option<Outcome>)
  {
    && (if r.None? then Passed(was, books) else Ended(was, books, id, r.value))
    && Moved(size, id, wire, before, accepts, m, after, nextAccepts, r)
    && (r.None? ==> before.pos < after.pos || (after.pos == before.pos && |after.pending| < |before.pending|))
  }

  lemma SteppedNowhere(size: Size, id: nat, wire: seq<Json>, was: Books, before: Desk, accepts: nat, src: Source, books: Books, after: Desk)
    requires Took(id, wire, before, after, None, src) && books == was.(pending := books.pending)
    ensures Stepped(size, id, wire, was, before, accepts, Move(None, src, after), books, after, accepts, Some(ReadFailed))
  {
    PassedNothing(was, books.pending);
  }

  lemma PlacedIsStep(size: Size, id: nat, wire: seq<Json>, was: Books, mid: Books, before: Desk, accepts: nat, m: Move,
                     books: Books, after: Desk, nextAccepts: nat, r: Option<Outcome>)
    requires mid == was.(pending := mid.pending) && m.taken.Some? && Took(id, wire, before, m.mid, m.taken, m.src)
    requires if r.None? then Passed(mid, books) && !Answers(m.taken.value, id) else Ended(mid, books, id, r.value)
    requires after == m.mid.(pending := after.pending)
    requires Placed(size, id, m.mid.pending, TotalSize(size, m.mid.pending), accepts, m.taken.value, after.pending, nextAccepts, r)
    ensures Stepped(size, id, wire, was, before, accepts, m, books, after, nextAccepts, r)
  {
    TakenThenPlaced(was, mid, books, id, r);
    MoveOf(size, id, wire, before, accepts, m, after, nextAccepts, r);
  }

  lemma RequestPlaced(size: Size, id: nat, pending: seq<Json>, bytes: nat, accepts: nat, v: Json, nextAccepts: nat, ok: bool)
    requires IsRequest(v) && (ok <==> accepts > 0) && nextAccepts == if ok then accepts - 1 else 0
    ensures Placed(size, id, pending, bytes, accepts, v, pending, nextAccepts, if ok then None else Some(HandlerFailed))
  {
  }

  /** After `n` of the messages `q` a call has this on its desk. */
  ghost predicate Going(size: Size, id: nat, wire: seq<Json>, q: seq<Json>, load: Load, n: nat, d: Desk, accepts: nat) {
    && d.pos <= |wire| && n <= |q| && Meeting(id, wire, d) == q[n..] && LoadOf(size, d.pending, accepts) == Loaded(size, load, q, n)
    && Passes(size, load, q, n)
  }

  lemma GoOn(size: Size, id: nat, wire: seq<Json>, q: seq<Json>, load: Load, n: nat, before: Desk, accepts: nat,
             m: Move, after: Desk, nextAccepts: nat, r: Option<Outcome>)
    requires Going(size, id, wire, q, load, n, before, accepts) && after.pos <= |wire|
    requires Moved(size, id, wire, before, accepts, m, after, nextAccepts, r)
    ensures r.None? ==> Going(size, id, wire, q, load, n + 1, after, nextAccepts)
    ensures r.Some? ==> Fate(size, q, load, id, r.value)
  {
    MovedIsStep(size, id, wire, before, accepts, m, after, nextAccepts, r);
    if r.Some? { FateFrom(size, load, q, n, id, r.value); } else { OneMore(q, n); }
  }

  lemma OneMore(q: seq<Json>, n: nat)
    requires n <= |q| && q[n..] != []
    ensures n < |q| && q[n..][0] == q[n] && q[n..][1..] == q[n + 1..]
  {
  }

  class JsonlClient {
    const size: Size
    const wire: seq<Json>
    const pipe: Pipe
    var pos: nat
    var pending: seq<Json>
    var pendingBytes: nat
    var nextId: nat
    /** How many further reads succeed, and how many further requests are handled. */
    var readable: nat
    var accepts: nat
    ghost var books: Books

    ghost predicate Valid()
      reads this
    {
      books.pending == pending && Bounded(size, pending, pendingBytes) && Kept(wire, pos, books)
    }

    constructor (size: Size, wire: seq<Json>)
      ensures Valid() && this.size == size && this.wire == wire && books == Books([], [], [], [], [], []) && nextId == 1
      ensures fresh(pipe) && pipe.taken == ""
    {
      this.size, this.wire := size, wire;
      pipe := new Pipe();
      pos, pending, pendingBytes, nextId, readable, accepts := 0, [], 0, 1, 0, 0;
      books := Books([], [], [], [], [], []);
      new;
      assert wire[..0] == [] && wire[0..] == wire;
    }

    /** Takes a pending message out; the caller places it. */
    method RemovePending(i: nat) returns (v: Json)
      requires i < |pending| && Bounded(size, pending, pendingBytes)
      modifies this`pending, this`pendingBytes
      ensures v == old(pending)[i] && pending == Without(old(pending), i) && Bounded(size, pending, pendingBytes)
    {
      RemoveSize(size, pending, i);
      v := pending[i];
      pending := Without(pending, i);
      pendingBytes := Monus(pendingBytes, size(v));
    }

    method PushPending(v: Json) returns (ok: bool)
      requires Bounded(size, pending, pendingBytes)
      modifies this`pending, this`pendingBytes
      ensures ok <==> |old(pending)| < MAX_PENDING_MESSAGES && old(pendingBytes) + size(v) <= MAX_PENDING_BYTES
      ensures pending == (if ok then old(pending) + [v] else old(pending)) && Bounded(size, pending, pendingBytes)
    {
      if |pending| == MAX_PENDING_MESSAGES || pendingBytes + size(v) > MAX_PENDING_BYTES { return false; }
      AddOne(size, pending, v);
      pendingBytes := pendingBytes + size(v);
      pending := pending + [v];
      ok := true;
    }

    ghost function Table(): Desk
      reads this
    {
      Desk(pending, pos, readable)
    }

    /** Reads the next message, unless the stream or the wait fails. */
    method ReadRaw() returns (r: Option<Json>)
      requires pos <= |wire|
      modifies this`pos, this`readable
      ensures r.Some? <==> old(readable) > 0 && old(pos) < |wire|
      ensures r.None? ==> pos == old(pos) && readable == old(readable)
      ensures r.Some? ==> pos == old(pos) + 1 <= |wire| && r.value == wire[old(pos)] && readable == old(readable) - 1
    {
      if readable == 0 || pos == |wire| { return None; }
      r := Some(wire[pos]);
      pos := pos + 1;
      readable := readable - 1;
    }

    /** The first pending message that answers the call, else the first pending
        server request. */
    method FindPending(id: nat) returns (i: Option<nat>)
      ensures i.Some? ==> i.value < |pending| && (Answers(pending[i.value], id) || IsRequest(pending[i.value]))
      ensures i.None? ==> forall k :: 0 <= k < |pending| ==> !Answers(pending[k], id) && !IsRequest(pending[k])
      ensures i.Some? && Answers(pending[i.value], id) ==> forall k :: 0 <= k < i.value ==> !Answers(pending[k], id)
      ensures i.Some? && !Answers(pending[i.value], id) ==> forall k :: 0 <= k < |pending| ==> !Answers(pending[k], id)
      ensures i.Some? && !Answers(pending[i.value], id) ==> forall k :: 0 <= k < i.value ==> !IsRequest(pending[k])
    {
      var n := 0;
      while n < |pending|
        invariant 0 <= n <= |pending| && forall k :: 0 <= k < n ==> !Answers(pending[k], id)
      {
        if Answers(pending[n], id) { return Some(n); }
        n := n + 1;
      }
      n := 0;
      while n < |pending|
        invariant 0 <= n <= |pending| && forall k :: 0 <= k < n ==> !IsRequest(pending[k])
      {
        if IsRequest(pending[n]) { return Some(n); }
        n := n + 1;
      }
      i := None;
    }

    /** One message in hand, the rest in order. */
    ghost predicate Holds(v: Json)
      reads this
    {
      books.pending == pending && Bounded(size, pending, pendingBytes) && Holding(wire, pos, books, v)
    }

    method TakePending(i: nat) returns (v: Json)
      requires Valid() && i < |pending| && !IsNotice(pending[i])
      requires IsRequest(pending[i]) ==> forall k :: 0 <= k < i ==> !IsRequest(pending[k])
      modifies this`pending, this`pendingBytes, this`books
      ensures Holds(v) && v == old(pending)[i] && pending == Without(old(pending), i) && books == old(books).(pending := pending)
    {
      HoldRemoved(wire, pos, books, i);
      v := RemovePending(i);
      books := books.(pending := pending);
    }

    method TakeRead() returns (r: Option<Json>)
      requires Valid() && Only(Request, pending) == []
      modifies this`pos, this`readable
      ensures r.Some? <==> old(readable) > 0 && old(pos) < |wire|
      ensures r.None? ==> pos == old(pos) && readable == old(readable)
      ensures r.Some? ==> Holds(r.value) && pos == old(pos) + 1 <= |wire| && r.value == wire[old(pos)] && readable == old(readable) - 1
    {
      if pos < |wire| { HoldRead(wire, pos, books); }
      r := ReadRaw();
    }

    /** A message for the call: from the pending ones if one is of use to it,
        else from the stream. */
    method TakeFor(id: nat) returns (r: Option<Json>, ghost src: Source)
      requires Valid()
      modifies this`pos, this`pending, this`pendingBytes, this`books, this`readable
      ensures books == old(books).(pending := pending) && Took(id, wire, old(Table()), Table(), r, src)
      ensures if r.None? then Valid() else Holds(r.value)
    {
      var i := FindPending(id);
      if i.Some? {
        src := FromPending(i.value);
        r := TakeUseful(id, i.value);
      } else {
        r, src := TakeNext(id);
      }
    }

    method TakeUseful(ghost id: nat, i: nat) returns (r: Option<Json>)
      requires Valid() && ToTake(id, pending, i)
      modifies this`pending, this`pendingBytes, this`books
      ensures books == old(books).(pending := pending) && Took(id, wire, old(Table()), Table(), r, FromPending(i))
      ensures r.Some? && Holds(r.value)
    {
      var v := TakePending(i);
      r := Some(v);
    }

    method TakeNext(ghost id: nat) returns (r: Option<Json>, ghost src: Source)
      requires Valid() && NoUse(id, pending)
      modifies this`pos, this`readable
      ensures Took(id, wire, old(Table()), Table(), r, src)
      ensures if r.None? then Valid() else Holds(r.value)
    {
      OnlyNone(Request, pending);
      r := TakeRead();
      src := if r.Some? then FromStream else Nowhere;
    }

    method Lose(v: Json)
      requires Holds(v)
      modifies this`books
      ensures Valid() && books == old(books).Lose(v)
    {
      PlaceLost(wire, pos, books, v);
      books := books.Lose(v);
    }

    method Answered(v: Json)
      requires Holds(v) && !IsNotice(v) && !IsRequest(v)
      modifies this`books
      ensures Valid() && books == old(books).(answered := old(books.answered) + [v])
    {
      PlaceAnswered(wire, pos, books, v);
      books := books.(answered := books.answered + [v]);
    }

    method Dispatch(v: Json) returns (ok: bool)
      requires Holds(v) && IsRequest(v)
      modifies this`books, this`accepts
      ensures Valid() && (ok <==> old(accepts) > 0) && accepts == (if ok then old(accepts) - 1 else 0)
      ensures books == if ok then old(books).Handle(v) else old(books).Lose(v)
    {
      ok := accepts > 0;
      if ok {
        PlaceHandled(wire, pos, books, v);
        books := books.Handle(v);
        accepts := accepts - 1;
      } else {
        Lose(v);
      }
    }

    method Keep(v: Json) returns (ok: bool)
      requires Holds(v) && !IsRequest(v)
      modifies this`books, this`pending, this`pendingBytes
      ensures Valid() && pending == (if ok then old(pending) + [v] else old(pending))
      ensures books == if ok then old(books).(pending := pending) else old(books).Lose(v)
      ensures ok <==> |old(pending)| < MAX_PENDING_MESSAGES && old(pendingBytes) + size(v) <= MAX_PENDING_BYTES
    {
      PlacePending(wire, pos, books, v);
      ok := PushPending(v);
      if ok {
        books := books.(pending := pending);
      } else {
        Lose(v);
      }
    }

    /** One message for the call; `r` is the outcome if it ends the call. */
    method ReadStep(id: nat) returns (r: Option<Outcome>, ghost m: Move)
      requires Valid()
      modifies this`pos, this`pending, this`pendingBytes, this`books, this`readable, this`accepts
      ensures Valid()
      ensures Stepped(size, id, wire, old(books), old(Table()), old(accepts), m, books, Table(), accepts, r)
    {
      var next, src := TakeFor(id);
      m := Move(next, src, Table());
      if next.None? {
        SteppedNowhere(size, id, wire, old(books), old(Table()), accepts, src, books, Table());
        return Some(ReadFailed), m;
      }
      r := PlaceTaken(id, next.value, old(books), old(Table()), m);
    }

    /** The message just taken out of the books `was` is placed. */
    method PlaceTaken(id: nat, v: Json, ghost was: Books, ghost before: Desk, ghost m: Move) returns (r: Option<Outcome>)
      requires Holds(v) && books == was.(pending := books.pending)
      requires m.taken == Some(v) && m.mid == Table() && Took(id, wire, before, m.mid, m.taken, m.src)
      modifies this`pending, this`pendingBytes, this`books, this`accepts
      ensures Valid()
      ensures Stepped(size, id, wire, was, before, old(accepts), m, books, Table(), accepts, r)
    {
      r := PlaceFor(id, v);
      PlacedIsStep(size, id, wire, was, old(books), before, old(accepts), m, books, Table(), accepts, r);
    }

    /** What becomes of the message in hand depends on what is pending now. */
    method PlaceFor(id: nat, v: Json) returns (r: Option<Outcome>)
      requires Holds(v)
      modifies this`pending, this`pendingBytes, this`books, this`accepts
      ensures Valid()
      ensures if r.None? then Passed(old(books), books) && !Answers(v, id) else Ended(old(books), books, id, r.value)
      ensures Placed(size, id, old(pending), old(pendingBytes), old(accepts), v, pending, accepts, r)
    {
      if Answers(v, id) {
        r := PlaceAnswer(id, v);
      } else if IsRequest(v) {
        r := PlaceRequest(id, v);
      } else {
        r := PlaceOther(id, v);
      }
    }

    method PlaceAnswer(ghost id: nat, v: Json) returns (r: Option<Outcome>)
      requires Holds(v) && Answers(v, id)
      modifies this`books
      ensures Valid() && r.Some? && Ended(old(books), books, id, r.value)
      ensures Placed(size, id, pending, pendingBytes, accepts, v, pending, accepts, r)
    {
      PassedNothing(books, pending);
      Answered(v);
      r := Some(Got(v));
    }

    method PlaceRequest(ghost id: nat, v: Json) returns (r: Option<Outcome>)
      requires Holds(v) && IsRequest(v)
      modifies this`books, this`accepts
      ensures Valid()
      ensures if r.None? then Passed(old(books), books) else Ended(old(books), books, id, r.value)
      ensures Placed(size, id, pending, pendingBytes, old(accepts), v, pending, accepts, r)
    {
      PassedOne(books, v);
      PassedNothing(books, books.pending);
      var ok := Dispatch(v);
      RequestPlaced(size, id, pending, pendingBytes, old(accepts), v, accepts, ok);
      r := if ok then None else Some(HandlerFailed);
    }

    method PlaceOther(ghost id: nat, v: Json) returns (r: Option<Outcome>)
      requires Holds(v) && !IsRequest(v) && !Answers(v, id)
      modifies this`pending, this`pendingBytes, this`books
      ensures Valid()
      ensures if r.None? then Passed(old(books), books) else Ended(old(books), books, id, r.value)
      ensures Placed(size, id, old(pending), old(pendingBytes), accepts, v, pending, accepts, r)
    {
      PassedNothing(books, books.pending);
      if IsResponse(v) {
        Lose(v);
        return Some(UnexpectedId);
      }
      var ok := Keep(v);
      if ok { PassedNothing(old(books), pending); }
      r := if ok then None else Some(PendingFull);
    }

    /** Reads until the response to `id`. Server requests met on the way are
        handled at once, one after the other; other messages are kept. Every
        message read is accounted for, whatever the outcome; only an error loses
        a message, the one it is about. The call ends at the first message it
        meets that ends it, as that message says. */
    method ReadResponse(id: nat) returns (r: Outcome)
      requires Valid()
      modifies this`pos, this`pending, this`pendingBytes, this`books, this`readable, this`accepts
      ensures Valid() && Ended(old(books), books, id, r)
      ensures Fate(size, Meeting(id, wire, old(Table())), LoadOf(size, old(pending), old(accepts)), id, r)
    {
      ghost var q, load := Meeting(id, wire, Table()), LoadOf(size, pending, accepts);
      ghost var n := 0;
      while true
        invariant Valid() && Passed(old(books), books)
        invariant Going(size, id, wire, q, load, n, Table(), accepts)
        decreases |wire| - pos, |pending|
      {
        ghost var was, before, left := books, Table(), accepts;
        var step, m := ReadStep(id);
        GoOn(size, id, wire, q, load, n, before, left, m, Table(), accepts, step);
        ThenPassed(old(books), was, books, id, step);
        if step.Some? { return step.value; }
        n := n + 1;
      }
    }

    /** A call: the request is sent, as far as the steps go, and then its response
        is read, while that many reads succeed and that many requests are handled.
        Whatever the outcome, the id is used up; nothing is read before the whole
        request was offered to the pipe; and the call ends as its fate is. */
    method Call(line: nat -> string, delivery: RequestDelivery, steps: seq<nat>, readable: nat, accepts: nat)
      returns (id: nat, ghost read: Outcome, r: Reply)
      requires Valid()
      modifies this, pipe, delivery
      ensures Valid() && id == old(nextId) && nextId == old(nextId) + 1
      ensures pipe.taken == old(pipe.taken) + After(line(id), steps).offered
      ensures delivery.possiblyWritten == (old(delivery.possiblyWritten) || After(line(id), steps).marked)
      ensures r.NotSent? <==> !After(line(id), steps).place.AtRead?
      ensures r.NotSent? ==> books == old(books) && pos == old(pos)
      ensures !r.NotSent? ==> Ended(old(books), books, id, read) && r == ReplyOf(read, id)
      ensures !r.NotSent? ==> Fate(size, Met(id, old(pending), wire, old(pos), readable), LoadOf(size, old(pending), accepts), id, read)
    {
      id := nextId;
      nextId := nextId + 1;
      this.readable, this.accepts := readable, accepts;
      var place := pipe.Send(line(id), delivery, steps);
      read := ReadFailed;
      if !place.AtRead? { return id, read, NotSent; }
      var outcome := ReadResponse(id);
      read := outcome;
      r := ReplyOf(outcome, id);
    }

    method NextMessage(fails: bool) returns (r: Option<Json>)
      requires Valid()
      modifies this`pos, this`pending, this`pendingBytes, this`books, this`readable
      ensures Valid()
      ensures r.Some? ==> books == old(books).(pending := pending).Deliver(r.value)
      ensures r.None? ==> books == old(books) && pos == old(pos) && pending == old(pending)
      ensures old(pending) != [] ==> r == Some(old(pending)[0]) && pos == old(pos) && pending == old(pending)[1..]
      ensures old(pending) == [] ==> r == if fails || old(pos) == |wire| then None else Some(wire[old(pos)])
    {
      if pending != [] {
        var v := NextPending();
        return Some(v);
      }
      readable := if fails then 0 else 1;
      r := TakeRead();
      if r.Some? { HandOver(r.value); }
    }

    /** The message in hand goes to the client when none is pending. */
    method HandOver(v: Json)
      requires Holds(v) && pending == []
      modifies this`books
      ensures Valid() && books == old(books).Deliver(v)
    {
      PlaceDelivered(wire, pos, books, v);
      books := books.Deliver(v);
    }

    method NextPending() returns (v: Json)
      requires Valid() && pending != []
      modifies this`pending, this`pendingBytes, this`books
      ensures Valid() && v == old(pending)[0] && pending == old(pending)[1..]
      ensures books == old(books).(pending := pending).Deliver(v)
    {
      DeliverFirst(wire, pos, books);
      v := RemovePending(0);
      books := books.(pending := pending).Deliver(v);
    }
  }
}
