/** Whole calls on the bounded ring: what `close` means for every later push, and that a
    call that runs alone does what it does on a first-in first-out queue of `cap` values. */
module BoundedCalls {
  import opened Tally
  import opened Solo
  import opened BoundedQueue
  import opened BoundedProof
  import Laps

  // ---------------------------------------------------------------- close

  /** The first answer thread `i` gives from `s` on. */
  ghost function FirstAnswer(s: State, moves: seq<(nat, nat)>, i: nat): Option<Answer>
    requires Shaped(s.sh)
    decreases |moves|
  {
    if i < |s.pcs| && s.pcs[i].Said? then Some(s.pcs[i].answer)
    else if moves == [] then None
    else FirstAnswer(Move(s, moves[0]), moves[1..], i)
  }

  /** A push that has loaded, or will load, the tail of a closed queue. */
  predicate Late(p: Pc) {
    match p
    case OnPush(PushLoad(_)) => true
    case OnPush(PushLoop(_, _, cl)) => cl.On?
    case Said(r) => r == WasClosed
    case _ => false
  }

  lemma {:induction false} LateIsRefused(s: State, moves: seq<(nat, nat)>, i: nat)
    requires Shaped(s.sh) && s.sh.closed.On? && i < |s.pcs| && Late(s.pcs[i])
    ensures FirstAnswer(s, moves, i) == None || FirstAnswer(s, moves, i) == Some(WasClosed)
    decreases |moves|
  {
    if moves != [] && !s.pcs[i].Said? {
      LateIsRefused(Move(s, moves[0]), moves[1..], i);
    }
  }

  /** The step of `close` closes the queue, and answers true exactly if it was open. From
      then on, through every interleaving, nothing is accepted, and a push that starts
      after it can only answer that the queue is closed. */
  lemma CloseRefusesLatePushes(
      s: State, before: seq<(nat, nat)>, i: nat, between: seq<(nat, nat)>, j: nat, v: int, after: seq<(nat, nat)>)
    requires Init(s) && i < |s.pcs| && Execute(s, before).pcs[i] == Idle
    ensures var t := Execute(s, before);
            var u := Move(t, (i, 0));
            var w := Execute(u, between);
            && u.sh == t.sh.(closed := On) && u.pcs[i] == Said(Closing(Flagged(t.sh.closed.Off?)))
            && w.sh.closed.On? && w.sh.pushed == t.sh.pushed
            && (j < |w.pcs| && w.pcs[j] == OnPush(PushLoad(v)) ==>
                  var r := FirstAnswer(w, after, j); r == None || r == Some(WasClosed))
  {
    var u := Move(Execute(s, before), (i, 0));
    ClosedForGood(u, between);
    var w := Execute(u, between);
    if j < |w.pcs| && w.pcs[j] == OnPush(PushLoad(v)) {
      LateIsRefused(w, after, j);
    }
  }

  // ---------------------------------------------------------------- running alone

  /** The values pushed and not yet popped, oldest first. */
  function Contents(a: Shared): seq<int>
    requires a.head <= a.tail <= |a.pushed|
  {
    a.pushed[a.head..a.tail]
  }

  function Alone(i: nat): Out -> Out { (o: Out) => if Shaped(o.sh) then Do(o.sh, i, o.pc, 1) else o }

  lemma {:induction false} AloneIsRun(s: State, i: nat, n: nat)
    requires Shaped(s.sh) && i < |s.pcs|
    ensures var o := Iterate(Alone(i), Out(s.sh, s.pcs[i]), n);
            Execute(s, Own(i, 1, n)) == State(o.sh, s.pcs[i := o.pc])
    decreases n
  {
    if n > 0 {
      assert Own(i, 1, n)[1..] == Own(i, 1, n - 1);
      AloneIsRun(Move(s, (i, 1)), i, n - 1);
    }
  }

  ghost predicate Runs(i: nat, a: Shared, p: Pc, b: Shared, q: Pc) { Leads(Alone(i), Out(a, p), Out(b, q)) }

  lemma Ahead(i: nat, a: Shared, p: Pc, b: Shared, q: Pc)
    requires Shaped(a) && var o := Do(a, i, p, 1); Runs(i, o.sh, o.pc, b, q)
    ensures Runs(i, a, p, b, q)
  {
    Then(Alone(i), Out(a, p), Out(b, q));
  }

  /** A free slot at the tail's index waits for the tail; a full one is a lap behind. */
  lemma FreeAtTail(cap: nat, head: nat, tail: nat, n: nat)
    requires cap > 0 && head <= tail <= n < head + cap && n % cap == tail % cap
    ensures n == tail
  {
    Laps.SameIndex(cap, n, tail);
  }

  lemma FullAtTail(cap: nat, tail: nat, n: nat)
    requires cap > 0 && n < tail <= n + cap && n % cap == tail % cap
    ensures tail == n + cap
  {
    if tail < n + cap {
      Laps.SameIndex(cap, n, tail);
    }
  }

  lemma TailSlot(a: Shared)
    requires Settled(a)
    ensures match StampAt(a, a.tail)
            case Free(n) => n % a.cap == a.tail % a.cap && a.tail <= n < a.head + a.cap
            case Full(n) => n % a.cap == a.tail % a.cap && a.head <= n < a.tail <= n + a.cap
  {
    assert SlotInv(a, Index(a, a.tail));
  }

  /** The slot of the next push in a ring at rest: free for it, or still full of the value
      one lap behind. */
  lemma TailStamp(a: Shared)
    requires Settled(a)
    ensures a.tail < a.head + a.cap ==> StampAt(a, a.tail) == Free(a.tail)
    ensures a.tail == a.head + a.cap ==> StampAt(a, a.tail) == Full(a.head)
  {
    TailSlot(a);
    match StampAt(a, a.tail)
    case Free(n) => FreeAtTail(a.cap, a.head, a.tail, n);
    case Full(n) => FullAtTail(a.cap, a.tail, n);
  }

  // ---------------------------------------------------------------- push

  lemma PushWins(i: nat, a: Shared, v: int) returns (b: Shared)
    requires Shaped(a) && a.closed.Off?
    ensures Runs(i, a, OnPush(PushCas(v, a.tail)), b, Said(Pushed(a.tail)))
    ensures b.pushed == a.pushed + [v] && b.tail == a.tail + 1 && b.head == a.head && b.closed == a.closed
  {
    var n := a.tail;
    var o := TailClaimed(a, i, n, v);
    var o' := Stored(o, n, v);
    b := Published(o', n);
    Arrived(Alone(i), Out(b, Said(Pushed(n))));
    Ahead(i, o', OnPush(PushStamp(v, n)), b, Said(Pushed(n)));
    Ahead(i, o, OnPush(PushWrite(v, n)), b, Said(Pushed(n)));
    Ahead(i, a, OnPush(PushCas(v, n)), b, Said(Pushed(n)));
  }

  lemma PushRuns(i: nat, a: Shared, v: int) returns (b: Shared)
    requires Settled(a) && a.closed.Off? && a.tail < a.head + a.cap
    ensures Runs(i, a, OnPush(PushLoad(v)), b, Said(Pushed(a.tail)))
    ensures b.pushed == a.pushed + [v] && b.tail == a.tail + 1 && b.head == a.head && b.closed == a.closed
  {
    TailStamp(a);
    b := PushWins(i, a, v);
    Ahead(i, a, OnPush(PushLoop(v, a.tail, Off)), b, Said(Pushed(a.tail)));
    Ahead(i, a, OnPush(PushLoad(v)), b, Said(Pushed(a.tail)));
  }

  lemma PushFinds(i: nat, a: Shared, v: int)
    requires Settled(a) && (a.closed.On? || a.tail == a.head + a.cap)
    ensures Runs(i, a, OnPush(PushLoad(v)), a, Said(if a.closed.On? then WasClosed else WasFull))
  {
    TailStamp(a);
    var answer := Said(if a.closed.On? then WasClosed else WasFull);
    Arrived(Alone(i), Out(a, answer));
    if a.closed.Off? {
      Ahead(i, a, OnPush(PushFull(v, a.tail)), a, answer);
    }
    Ahead(i, a, OnPush(PushLoop(v, a.tail, a.closed)), a, answer);
    Ahead(i, a, OnPush(PushLoad(v)), a, answer);
  }

  // ---------------------------------------------------------------- pop

  lemma PopRuns(i: nat, a: Shared) returns (b: Shared)
    requires Settled(a) && a.head < a.tail
    ensures Runs(i, a, OnPop(PopLoad), b, Said(Popped(a.head, a.pushed[a.head])))
    ensures b.pushed == a.pushed && b.tail == a.tail && b.head == a.head + 1 && b.closed == a.closed
  {
    Holds(a, a.head);
    var n, x := a.head, a.pushed[a.head];
    var answer := Said(Popped(n, x));
    var o := HeadClaimed(a, i, n);
    var o' := o.(popped := o.popped[n := x]);
    b := Released(o', n);
    Arrived(Alone(i), Out(b, answer));
    Ahead(i, o', OnPop(PopStamp(n, x)), b, answer);
    Ahead(i, o, OnPop(PopRead(n)), b, answer);
    Ahead(i, a, OnPop(PopCas(n)), b, answer);
    Ahead(i, a, OnPop(PopLoop(n)), b, answer);
    Ahead(i, a, OnPop(PopLoad), b, answer);
  }

  lemma PopFinds(i: nat, a: Shared)
    requires Settled(a) && a.head == a.tail
    ensures Runs(i, a, OnPop(PopLoad), a, Said(if a.closed.On? then WasClosed else WasEmpty))
  {
    TailStamp(a);
    var answer := Said(if a.closed.On? then WasClosed else WasEmpty);
    Arrived(Alone(i), Out(a, answer));
    Ahead(i, a, OnPop(PopTail(a.head)), a, answer);
    Ahead(i, a, OnPop(PopLoop(a.head)), a, answer);
    Ahead(i, a, OnPop(PopLoad), a, answer);
  }

  // ---------------------------------------------------------------- whole calls

  /** The run in which thread `i` starts a call and goes on alone. */
  function Call(i: nat, c: nat, n: nat): seq<(nat, nat)> { [(i, c)] + Own(i, 1, n) }

  lemma CallIsRun(s: State, i: nat, c: nat, b: Shared, q: Pc) returns (n: nat)
    requires Shaped(s.sh) && i < |s.pcs| && var o := Do(s.sh, i, s.pcs[i], c); Runs(i, o.sh, o.pc, b, q)
    ensures Execute(s, Call(i, c, n)) == State(b, s.pcs[i := q])
  {
    var o := Do(s.sh, i, s.pcs[i], c);
    n :| Iterate(Alone(i), o, n) == Out(b, q);
    AloneIsRun(Move(s, (i, c)), i, n);
    assert Call(i, c, n)[1..] == Own(i, 1, n);
  }

  ghost predicate AtRest(s: State, moves: seq<(nat, nat)>, i: nat) {
    Init(s) && Quiet(Execute(s, moves)) && i < |s.pcs|
  }

  /** A `push` that runs alone appends its value, unless the queue is closed or full. */
  lemma PushAppends(s: State, moves: seq<(nat, nat)>, i: nat, v: nat) returns (n: nat)
    requires AtRest(s, moves, i) && v >= 3
    ensures var t := Execute(s, moves);
            var u := Execute(t, Call(i, v, n));
            && t.sh.head <= t.sh.tail <= |t.sh.pushed| && u.sh.head <= u.sh.tail <= |u.sh.pushed|
            && (if t.sh.closed.On? || |Contents(t.sh)| == t.sh.cap then
                  u == State(t.sh, t.pcs[i := Said(if t.sh.closed.On? then WasClosed else WasFull)])
                else
                  && u.pcs == t.pcs[i := Said(Pushed(t.sh.tail))] && u.sh.closed.Off?
                  && Contents(u.sh) == Contents(t.sh) + [v])
  {
    var t := Execute(s, moves);
    QuietIsSettled(s, moves);
    if t.sh.closed.On? || |Contents(t.sh)| == t.sh.cap {
      PushFinds(i, t.sh, v);
      n := CallIsRun(t, i, v, t.sh, Said(if t.sh.closed.On? then WasClosed else WasFull));
    } else {
      var b := PushRuns(i, t.sh, v);
      n := CallIsRun(t, i, v, b, Said(Pushed(t.sh.tail)));
    }
  }

  /** A `pop` that runs alone takes the oldest value, or tells that there is none. */
  lemma PopTakesOldest(s: State, moves: seq<(nat, nat)>, i: nat) returns (n: nat)
    requires AtRest(s, moves, i)
    ensures var t := Execute(s, moves);
            var u := Execute(t, Call(i, 1, n));
            && t.sh.head <= t.sh.tail <= |t.sh.pushed| && u.sh.head <= u.sh.tail <= |u.sh.pushed|
            && (if Contents(t.sh) == [] then
                  u == State(t.sh, t.pcs[i := Said(if t.sh.closed.On? then WasClosed else WasEmpty)])
                else
                  && u.pcs == t.pcs[i := Said(Popped(t.sh.head, Contents(t.sh)[0]))] && u.sh.closed == t.sh.closed
                  && Contents(u.sh) == Contents(t.sh)[1..])
  {
    var t := Execute(s, moves);
    QuietIsSettled(s, moves);
    if t.sh.head == t.sh.tail {
      PopFinds(i, t.sh);
      n := CallIsRun(t, i, 1, t.sh, Said(if t.sh.closed.On? then WasClosed else WasEmpty));
    } else {
      var b := PopRuns(i, t.sh);
      n := CallIsRun(t, i, 1, b, Said(Popped(t.sh.head, t.sh.pushed[t.sh.head])));
    }
  }

  /** A `len` that runs alone answers the number of values. */
  lemma LenCounts(s: State, moves: seq<(nat, nat)>, i: nat) returns (n: nat)
    requires AtRest(s, moves, i)
    ensures var t := Execute(s, moves);
            && t.sh.head <= t.sh.tail <= |t.sh.pushed|
            && Execute(t, Call(i, 2, n)) == State(t.sh, t.pcs[i := Said(Length(|Contents(t.sh)|))])
  {
    var t := Execute(s, moves);
    QuietIsSettled(s, moves);
    var a := t.sh;
    LenExact(a.cap, a.head, a.tail);
    var answer := Said(Length(|Contents(a)|));
    Arrived(Alone(i), Out(a, answer));
    Ahead(i, a, OnLen(LenCheck(a.tail, a.closed, a.head, a.tail - a.head)), a, answer);
    Ahead(i, a, OnLen(LenHead(a.tail, a.closed)), a, answer);
    Ahead(i, a, OnLen(LenTail), a, answer);
    n := CallIsRun(t, i, 2, a, answer);
  }
}
