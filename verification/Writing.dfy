/** How a request gets onto the child's standard input (src/jsonl.rs
    RequestDelivery, call_with_server_request_handler_and_delivery): the lock is
    taken, the delivery is marked, the line and its newline are written, the pipe
    is flushed, and only then is anything read. The caller may be gone, or the
    write fail, after any step. */
module Writing {
  import opened Basics

  /** The step a request waits at. */
  datatype Place = AtLock | AtMark | AtLine | AtNewline | AtFlush | AtRead

  /** Where a request is, whether it was marked, and what the pipe has taken. */
  datatype Sending = Sending(place: Place, marked: bool, offered: string)

  /** One step; a write takes as much as the pipe accepts. */
  function Step(s: Sending, line: string, accepts: nat): Sending {
    match s.place
    case AtLock => s.(place := AtMark)
    case AtMark => s.(place := AtLine, marked := true)
    case AtLine =>
      var upto := Min(|s.offered| + accepts, |line|);
      Sending(if upto == |line| then AtNewline else AtLine, s.marked, line[..upto])
    case AtNewline => if accepts == 0 then s else Sending(AtFlush, s.marked, line + "\n")
    case AtFlush => s.(place := AtRead)
    case AtRead => s
  }

  /** What was done of a request that took these steps and no more. */
  function After(line: string, steps: seq<nat>): Sending {
    if steps == [] then Sending(AtLock, false, "")
    else Step(After(line, steps[..|steps| - 1]), line, steps[|steps| - 1])
  }

  /** Nothing is offered to the pipe without the mark, and only the line in order. */
  ghost predicate Ordered(s: Sending, line: string) {
    && (s.marked <==> !s.place.AtLock? && !s.place.AtMark?)
    && (s.place.AtLock? || s.place.AtMark? ==> s.offered == "")
    && (s.place.AtLine? || s.place.AtNewline? ==> s.offered <= line)
    && (s.place.AtNewline? ==> s.offered == line)
    && (s.place.AtFlush? || s.place.AtRead? ==> s.offered == line + "\n")
  }

  lemma {:induction false} AlwaysOrdered(line: string, steps: seq<nat>)
    ensures Ordered(After(line, steps), line)
  {
    if steps != [] { AlwaysOrdered(line, steps[..|steps| - 1]); }
  }

  /** Wherever a request is given up: if it is not marked then no character of it
      was offered to the pipe, and what was offered is the start of its line. A
      request whose answer is read was marked and offered in full. */
  lemma UnmarkedIsUnsent(line: string, steps: seq<nat>)
    ensures var s := After(line, steps);
            && (!s.marked ==> s.offered == "")
            && (s.offered != "" ==> s.marked)
            && s.offered <= line + "\n"
            && (s.place.AtRead? ==> s.marked && s.offered == line + "\n")
  {
    AlwaysOrdered(line, steps);
  }

  // ---------------------------------------------------------------------------
  // How far a request gets.

  function Sum(amounts: seq<nat>): nat {
    if amounts == [] then 0 else Sum(amounts[..|amounts| - 1]) + amounts[|amounts| - 1]
  }

  /** After `n` steps the whole line was taken: two steps come before it, and the
      pipe took as much as it accepted at each step after them. */
  ghost predicate LineTaken(line: string, steps: seq<nat>, n: nat) {
    3 <= n <= |steps| && Sum(steps[2..n]) >= |line|
  }

  /** After that, a step that accepted anything took the newline. */
  ghost predicate NewlineTaken(line: string, steps: seq<nat>, n: nat, m: nat) {
    LineTaken(line, steps, n) && n <= m < |steps| && steps[m] > 0
  }

  ghost predicate AnyLine(line: string, steps: seq<nat>) {
    exists n :: LineTaken(line, steps, n)
  }

  ghost predicate AnyNewline(line: string, steps: seq<nat>) {
    exists n, m :: NewlineTaken(line, steps, n, m)
  }

  lemma SameFront(steps: seq<nat>, n: nat)
    requires 2 <= n < |steps|
    ensures steps[..|steps| - 1][2..n] == steps[2..n]
  {
  }

  lemma LineTakenNext(line: string, steps: seq<nat>)
    requires steps != []
    ensures var init := steps[..|steps| - 1];
            AnyLine(line, steps) <==> AnyLine(line, init) || (|steps| >= 3 && Sum(steps[2..]) >= |line|)
  {
    var init := steps[..|steps| - 1];
    forall n | 3 <= n < |steps| ensures LineTaken(line, init, n) <==> LineTaken(line, steps, n) {
      SameFront(steps, n);
    }
    if |steps| >= 3 { assert steps[2..|steps|] == steps[2..]; }
    if |steps| >= 3 && Sum(steps[2..]) >= |line| { assert LineTaken(line, steps, |steps|); }
    if AnyLine(line, init) {
      var n: nat :| LineTaken(line, init, n);
      SameFront(steps, n);
      assert LineTaken(line, steps, n);
    }
  }

  lemma NewlineTakenNext(line: string, steps: seq<nat>)
    requires steps != []
    ensures var init := steps[..|steps| - 1];
            AnyNewline(line, steps) <==> AnyNewline(line, init) || (AnyLine(line, init) && steps[|steps| - 1] > 0)
  {
    var init := steps[..|steps| - 1];
    forall n, m | 3 <= n <= m < |init| ensures NewlineTaken(line, init, n, m) <==> NewlineTaken(line, steps, n, m) {
      SameFront(steps, n);
    }
    if AnyNewline(line, init) {
      var n: nat, m: nat :| NewlineTaken(line, init, n, m);
      SameFront(steps, n);
      assert NewlineTaken(line, steps, n, m);
    }
    forall n | 3 <= n < |steps| ensures LineTaken(line, init, n) <==> LineTaken(line, steps, n) {
      SameFront(steps, n);
    }
    if AnyLine(line, init) && steps[|steps| - 1] > 0 {
      var n: nat :| LineTaken(line, init, n);
      SameFront(steps, n);
      assert NewlineTaken(line, steps, n, |steps| - 1);
    }
  }

  /** Where a request is, by what the pipe accepted. */
  ghost predicate PlacedBy(line: string, steps: seq<nat>, s: Sending) {
    && (s.place.AtLock? <==> |steps| == 0)
    && (s.place.AtMark? <==> |steps| == 1)
    && (s.place.AtLine? <==> |steps| >= 2 && !AnyLine(line, steps))
    && (s.place.AtNewline? <==> AnyLine(line, steps) && !AnyNewline(line, steps))
    && (s.place.AtRead? ==> AnyNewline(line, steps[..|steps| - 1]))
    && (s.place.AtFlush? ==> !AnyNewline(line, steps[..|steps| - 1]))
    && (s.place.AtLine? ==> s.offered == line[..Min(Sum(steps[2..]), |line|)])
  }

  lemma {:induction false} PlaceFollows(line: string, steps: seq<nat>)
    ensures PlacedBy(line, steps, After(line, steps))
  {
    if steps != [] {
      var init := steps[..|steps| - 1];
      PlaceFollows(line, init);
      AlwaysOrdered(line, init);
      LineTakenNext(line, steps);
      NewlineTakenNext(line, steps);
      if |init| >= 2 { assert steps[2..][..|steps[2..]| - 1] == init[2..]; }
    }
  }

  /** A request is marked exactly if it got past its first two steps, and its
      answer is read exactly if the pipe took its line, then its newline, and one
      step more was taken. */
  lemma ReadsExactly(line: string, steps: seq<nat>)
    ensures After(line, steps).marked <==> |steps| >= 2
    ensures After(line, steps).place.AtRead? <==> exists n: nat, m: nat :: NewlineTaken(line, steps, n, m) && m + 1 < |steps|
  {
    AlwaysOrdered(line, steps);
    PlaceFollows(line, steps);
    if steps != [] {
      var init := steps[..|steps| - 1];
      forall n, m | 3 <= n <= m < |init| ensures NewlineTaken(line, init, n, m) <==> NewlineTaken(line, steps, n, m) {
        SameFront(steps, n);
      }
      assert AnyNewline(line, init) <==> exists n: nat, m: nat :: NewlineTaken(line, steps, n, m) && m + 1 < |steps|;
      NewlineTakenNext(line, steps);
    }
  }

  /** The mark is for good, and nothing offered is taken back. */
  lemma {:induction false} MarkStays(line: string, steps: seq<nat>, n: nat)
    requires n <= |steps|
    ensures After(line, steps[..n]).marked ==> After(line, steps).marked
    ensures After(line, steps[..n]).offered <= After(line, steps).offered
  {
    if n == |steps| {
      assert steps[..n] == steps;
    } else {
      var init := steps[..|steps| - 1];
      assert init[..n] == steps[..n];
      MarkStays(line, init, n);
      AlwaysOrdered(line, init);
    }
  }

  /** Shared with whoever may cancel the request. */
  class RequestDelivery {
    var possiblyWritten: bool

    constructor ()
      ensures !possiblyWritten
    {
      possiblyWritten := false;
    }

    method MarkWriteStarted()
      modifies this
      ensures possiblyWritten
    {
      possiblyWritten := true;
    }
  }

  /** The child's standard input. */
  class Pipe {
    var taken: string

    constructor ()
      ensures taken == ""
    {
      taken := "";
    }

    /** Sends a line as far as the steps go. The delivery reads as marked exactly
        if the request was, and the pipe has exactly what was offered. */
    method Send(line: string, delivery: RequestDelivery, steps: seq<nat>) returns (place: Place)
      modifies this, delivery
      ensures place == After(line, steps).place
      ensures taken == old(taken) + After(line, steps).offered
      ensures delivery.possiblyWritten == (old(delivery.possiblyWritten) || After(line, steps).marked)
    {
      place := AtLock;
      var sent := 0;
      for n := 0 to |steps|
        invariant var s := After(line, steps[..n]);
                  && place == s.place && sent == Min(|s.offered|, |line|) && taken == old(taken) + s.offered
                  && delivery.possiblyWritten == (old(delivery.possiblyWritten) || s.marked)
      {
        assert steps[..n + 1][..n] == steps[..n];
        AlwaysOrdered(line, steps[..n]);
        match place {
          case AtLock =>
            place := AtMark;
          case AtMark =>
            delivery.MarkWriteStarted();
            place := AtLine;
          case AtLine =>
            var upto := Min(sent + steps[n], |line|);
            taken := taken + line[sent..upto];
            sent := upto;
            if upto == |line| { place := AtNewline; }
          case AtNewline =>
            if steps[n] > 0 {
              taken := taken + "\n";
              place := AtFlush;
            }
          case AtFlush =>
            place := AtRead;
          case AtRead =>
        }
      }
      assert steps[..|steps|] == steps;
    }
  }
}
