/** Every interleaving of push, pop, len and close on the bounded ring acts as one
    first-in first-out queue of capacity `cap`. */
module BoundedProof {
  import opened Tally
  import opened BoundedQueue
  import Laps

  // ---------------------------------------------------------------- the invariant

  /** Slot `k` waits for a push within the next lap, or holds a value of the last lap. */
  predicate SlotInv(a: Shared, k: nat)
    requires Shaped(a) && k < a.cap && |a.pushed| == a.tail
  {
    match a.slots[k].stamp
    case Free(n) => n % a.cap == k && a.head <= n < a.head + a.cap && (n < a.tail ==> n in a.pushers)
    case Full(n) =>
      && n % a.cap == k && n < a.tail <= n + a.cap
      && a.slots[k].value == Some(a.pushed[n])
      && (n < a.head ==> n in a.poppers)
  }

  ghost predicate SharedInv(a: Shared) {
    && Shaped(a) && |a.pushed| == a.tail
    && a.head <= a.tail <= a.head + a.cap
    && (forall k: nat :: k < a.cap ==> SlotInv(a, k))
    && (forall n :: n in a.pushers ==> n < a.tail && StampAt(a, n) == Free(n))
    && (forall n :: n in a.poppers ==> n < a.head && StampAt(a, n) == Full(n))
    && (forall n :: n in a.popped ==> n < a.head && a.popped[n] == a.pushed[n])
    && (forall n: nat :: n < a.head && n !in a.poppers ==> n in a.popped)
  }

  predicate PushInv(a: Shared, i: nat, p: PushPc)
    requires Shaped(a) && |a.pushed| == a.tail
  {
    match p
    case PushLoad(_) => true
    case PushLoop(_, t, cl) => t <= a.tail && (cl.On? ==> a.closed.On?)
    case PushCas(_, t) => t <= a.tail && (t == a.tail ==> StampAt(a, t) == Free(t))
    case PushFull(_, t) => t <= a.tail
    case PushWrite(v, n) => n in a.pushers && a.pushers[n] == i && n < a.tail && a.pushed[n] == v
    case PushStamp(v, n) =>
      n in a.pushers && a.pushers[n] == i && n < a.tail && a.pushed[n] == v && ValueAt(a, n) == Some(v)
  }

  predicate PoppingInv(a: Shared, i: nat, p: PopPc)
    requires Shaped(a) && |a.pushed| == a.tail
  {
    match p
    case PopLoad => true
    case PopLoop(h) => h <= a.head
    case PopCas(h) => h <= a.head && (h == a.head ==> StampAt(a, h) == Full(h))
    case PopTail(h) => h <= a.head
    case PopRead(n) => n in a.poppers && a.poppers[n] == i && n !in a.popped
    case PopStamp(n, x) => n in a.poppers && a.poppers[n] == i && n in a.popped && a.popped[n] == x
  }

  predicate LenInv(a: Shared, p: LenPc) {
    match p
    case LenTail => true
    case LenHead(t, cl) => t <= a.tail
    case LenCheck(t, cl, h, seen) => t <= a.tail && (t == a.tail ==> h <= t <= h + a.cap && seen == t - h)
  }

  predicate AnswerInv(a: Shared, r: Answer) {
    match r
    case Pushed(n) => n < |a.pushed|
    case Popped(n, x) => n < |a.pushed| && a.pushed[n] == x
    case _ => true
  }

  predicate ThreadInv(a: Shared, i: nat, p: Pc)
    requires Shaped(a) && |a.pushed| == a.tail
  {
    match p
    case Idle => true
    case OnPush(x) => PushInv(a, i, x)
    case OnPop(x) => PoppingInv(a, i, x)
    case OnLen(x) => LenInv(a, x)
    case Said(r) => AnswerInv(a, r)
  }

  /** The position a thread pushes or pops and has not finished with. */
  function PushOf(p: Pc): Option<nat> {
    match p
    case OnPush(PushWrite(_, n)) => Some(n)
    case OnPush(PushStamp(_, n)) => Some(n)
    case _ => None
  }

  function PopOf(p: Pc): Option<nat> {
    match p
    case OnPop(PopRead(n)) => Some(n)
    case OnPop(PopStamp(n, _)) => Some(n)
    case _ => None
  }

  /** Every claim on record belongs to a thread that is still working on it. */
  ghost predicate Manned(s: State) {
    && (forall n :: n in s.sh.pushers ==>
          s.sh.pushers[n] < |s.pcs| && PushOf(s.pcs[s.sh.pushers[n]]) == Some(n))
    && (forall n :: n in s.sh.poppers ==>
          s.sh.poppers[n] < |s.pcs| && PopOf(s.pcs[s.sh.poppers[n]]) == Some(n))
  }

  ghost predicate Inv(s: State) {
    && SharedInv(s.sh) && Manned(s)
    && forall i: nat :: i < |s.pcs| ==> ThreadInv(s.sh, i, s.pcs[i])
  }

  // ---------------------------------------------------------------- what a step leaves to others

  predicate SameSlot(a: Shared, b: Shared, n: nat)
    requires Shaped(a) && Shaped(b)
  {
    StampAt(b, n) == StampAt(a, n) && ValueAt(b, n) == ValueAt(a, n)
  }

  ghost predicate Rely(a: Shared, b: Shared, i: nat)
    requires Shaped(a) && Shaped(b)
  {
    && b.cap == a.cap && a.tail <= b.tail && a.head <= b.head && (a.closed.On? ==> b.closed.On?)
    && |a.pushed| <= |b.pushed| && (forall n :: 0 <= n < |a.pushed| ==> b.pushed[n] == a.pushed[n])
    && (b.tail == a.tail && StampAt(a, a.tail) == Free(a.tail) ==> StampAt(b, a.tail) == Free(a.tail))
    && (b.head == a.head && StampAt(a, a.head) == Full(a.head) ==> StampAt(b, a.head) == Full(a.head))
    && (forall n :: n in a.pushers && a.pushers[n] != i ==>
          n in b.pushers && b.pushers[n] == a.pushers[n] && SameSlot(a, b, n))
    && (forall n :: n in a.poppers && a.poppers[n] != i ==>
          && n in b.poppers && b.poppers[n] == a.poppers[n] && SameSlot(a, b, n)
          && (n in b.popped <==> n in a.popped)
          && (n in a.popped ==> b.popped[n] == a.popped[n]))
  }

  lemma OthersKeep(a: Shared, b: Shared, i: nat, j: nat, p: Pc)
    requires SharedInv(a) && SharedInv(b) && Rely(a, b, i) && i != j && ThreadInv(a, j, p)
    ensures ThreadInv(b, j, p)
  {
  }

  // ---------------------------------------------------------------- one step

  ghost predicate Good(a: Shared, i: nat, o: Out)
    requires Shaped(a) && Shaped(o.sh)
  {
    SharedInv(o.sh) && Rely(a, o.sh, i) && ThreadInv(o.sh, i, o.pc)
  }

  lemma Stutter(a: Shared, i: nat, q: Pc)
    requires SharedInv(a) && ThreadInv(a, i, q)
    ensures Good(a, i, Out(a, q))
  {
  }

  /** Claiming the tail: the free slot of the new position becomes the claimer's. */
  lemma ClaimTail(a: Shared, i: nat, v: int)
    requires SharedInv(a) && StampAt(a, a.tail) == Free(a.tail)
    ensures SharedInv(TailClaimed(a, i, a.tail, v))
  {
    var b := TailClaimed(a, i, a.tail, v);
    assert SlotInv(a, Index(a, a.tail));
    forall k: nat | k < a.cap ensures SlotInv(b, k) {
      assert SlotInv(a, k);
      if a.slots[k].stamp.Full? {
        Laps.NextLap(a.cap, a.slots[k].stamp.n);
      }
    }
  }

  lemma ClaimTailRely(a: Shared, i: nat, v: int)
    requires SharedInv(a)
    ensures Rely(a, TailClaimed(a, i, a.tail, v), i)
  {
    assert a.tail !in a.pushers;
  }

  lemma ClaimTailStep(a: Shared, i: nat, v: int, c: nat)
    requires SharedInv(a) && StampAt(a, a.tail) == Free(a.tail) && c != 0 && a.closed.Off?
    ensures Good(a, i, DoPush(a, i, PushCas(v, a.tail), c))
  {
    ClaimTail(a, i, v);
    ClaimTailRely(a, i, v);
  }

  lemma ClaimHead(a: Shared, i: nat)
    requires SharedInv(a) && StampAt(a, a.head) == Full(a.head)
    ensures SharedInv(HeadClaimed(a, i, a.head))
  {
    var b := HeadClaimed(a, i, a.head);
    assert SlotInv(a, Index(a, a.head));
    forall k: nat | k < a.cap ensures SlotInv(b, k) {
      assert SlotInv(a, k);
    }
  }

  lemma ClaimHeadRely(a: Shared, i: nat)
    requires SharedInv(a)
    ensures Rely(a, HeadClaimed(a, i, a.head), i) && a.head !in a.popped
  {
    assert a.head !in a.poppers;
  }

  lemma ClaimHeadStep(a: Shared, i: nat, c: nat)
    requires SharedInv(a) && StampAt(a, a.head) == Full(a.head) && c != 0
    ensures Good(a, i, DoPop(a, i, PopCas(a.head), c))
  {
    ClaimHead(a, i);
    ClaimHeadRely(a, i);
  }

  /** The owner of a claimed position may change its slot: nobody else's claim is there. */
  lemma StoreValue(a: Shared, n: nat, v: int)
    requires SharedInv(a) && n in a.pushers
    ensures SharedInv(Stored(a, n, v))
  {
    var b := Stored(a, n, v);
    forall k: nat | k < a.cap ensures SlotInv(b, k) {
      assert SlotInv(a, k);
    }
  }

  lemma StoreValueStep(a: Shared, i: nat, n: nat, v: int, c: nat)
    requires SharedInv(a) && PushInv(a, i, PushWrite(v, n))
    ensures Good(a, i, DoPush(a, i, PushWrite(v, n), c))
  {
    StoreValue(a, n, v);
  }

  lemma Publish(a: Shared, n: nat, v: int)
    requires SharedInv(a) && n in a.pushers && a.pushed[n] == v && ValueAt(a, n) == Some(v)
    ensures SharedInv(Published(a, n))
  {
    var b := Published(a, n);
    assert SlotInv(a, Index(a, n));
    forall k: nat | k < a.cap ensures SlotInv(b, k) {
      assert SlotInv(a, k);
    }
  }

  lemma PublishRely(a: Shared, i: nat, n: nat)
    requires SharedInv(a) && n in a.pushers && a.pushers[n] == i
    ensures Rely(a, Published(a, n), i)
  {
  }

  lemma PublishStep(a: Shared, i: nat, n: nat, v: int, c: nat)
    requires SharedInv(a) && PushInv(a, i, PushStamp(v, n))
    ensures Good(a, i, DoPush(a, i, PushStamp(v, n), c))
  {
    Publish(a, n, v);
    PublishRely(a, i, n);
  }

  lemma TakeValue(a: Shared, n: nat, x: int)
    requires SharedInv(a) && n in a.poppers && x == a.pushed[n]
    ensures SharedInv(a.(popped := a.popped[n := x]))
  {
    var b := a.(popped := a.popped[n := x]);
    forall k: nat | k < a.cap ensures SlotInv(b, k) {
      assert SlotInv(a, k);
    }
  }

  lemma TakeValueRely(a: Shared, i: nat, n: nat, x: int)
    requires SharedInv(a) && n in a.poppers && a.poppers[n] == i
    ensures Rely(a, a.(popped := a.popped[n := x]), i)
  {
  }

  lemma TakeValueStep(a: Shared, i: nat, n: nat, c: nat)
    requires SharedInv(a) && PoppingInv(a, i, PopRead(n))
    ensures Good(a, i, DoPop(a, i, PopRead(n), c))
  {
    assert SlotInv(a, Index(a, n));
    TakeValue(a, n, a.pushed[n]);
    TakeValueRely(a, i, n, a.pushed[n]);
  }

  lemma Release(a: Shared, n: nat)
    requires SharedInv(a) && n in a.poppers && n in a.popped
    ensures SharedInv(Released(a, n))
  {
    var b := Released(a, n);
    assert SlotInv(a, Index(a, n));
    Laps.NextLap(a.cap, n);
    forall k: nat | k < a.cap ensures SlotInv(b, k) {
      assert SlotInv(a, k);
    }
  }

  /** What is at stake for the others when the popper of `n` frees its slot. */
  lemma ReleaseRely(a: Shared, i: nat, n: nat)
    requires SharedInv(a) && n in a.poppers && a.poppers[n] == i
    ensures Rely(a, Released(a, n), i)
  {
  }

  lemma ReleaseStep(a: Shared, i: nat, n: nat, x: int, c: nat)
    requires SharedInv(a) && PoppingInv(a, i, PopStamp(n, x))
    ensures Good(a, i, DoPop(a, i, PopStamp(n, x), c))
  {
    Release(a, n);
    ReleaseRely(a, i, n);
  }

  lemma PushStep(a: Shared, i: nat, p: PushPc, c: nat)
    requires SharedInv(a) && PushInv(a, i, p)
    ensures Good(a, i, DoPush(a, i, p, c))
  {
    match p
    case PushWrite(v, n) => StoreValueStep(a, i, n, v, c);
    case PushStamp(v, n) => PublishStep(a, i, n, v, c);
    case PushCas(v, t) =>
      if c == 0 || a.tail != t || a.closed.On? {
        Stutter(a, i, DoPush(a, i, p, c).pc);
      } else {
        ClaimTailStep(a, i, v, c);
      }
    case _ => Stutter(a, i, DoPush(a, i, p, c).pc);
  }

  lemma PopQuiet(a: Shared, i: nat, p: PopPc, c: nat)
    requires SharedInv(a) && PoppingInv(a, i, p) && !p.PopRead? && !p.PopStamp?
    requires p.PopCas? ==> c == 0 || a.head != p.h
    ensures Good(a, i, DoPop(a, i, p, c))
  {
    Stutter(a, i, DoPop(a, i, p, c).pc);
  }

  lemma PopStep(a: Shared, i: nat, p: PopPc, c: nat)
    requires SharedInv(a) && PoppingInv(a, i, p)
    ensures Good(a, i, DoPop(a, i, p, c))
  {
    if p.PopRead? {
      TakeValueStep(a, i, p.n, c);
    } else if p.PopStamp? {
      ReleaseStep(a, i, p.n, p.x, c);
    } else if p.PopCas? && c != 0 && a.head == p.h {
      ClaimHeadStep(a, i, c);
    } else {
      PopQuiet(a, i, p, c);
    }
  }

  lemma Close(a: Shared, i: nat)
    requires SharedInv(a)
    ensures Good(a, i, DoIdle(a, 0))
  {
    var b := a.(closed := On);
    forall k: nat | k < a.cap ensures SlotInv(b, k) {
      assert SlotInv(a, k);
    }
  }

  lemma Step(a: Shared, i: nat, p: Pc, c: nat)
    requires SharedInv(a) && ThreadInv(a, i, p)
    ensures Good(a, i, Do(a, i, p, c))
  {
    match p
    case OnPush(x) => PushStep(a, i, x, c);
    case OnPop(x) => PopStep(a, i, x, c);
    case Idle =>
      if c == 0 {
        Close(a, i);
      } else {
        Stutter(a, i, Do(a, i, p, c).pc);
      }
    case _ => Stutter(a, i, Do(a, i, p, c).pc);
  }

  /** How a step of thread `i` changes the claims on record. */
  ghost predicate Recorded(a: Shared, i: nat, p: Pc, o: Out) {
    && (forall n :: n in o.sh.pushers && PushOf(o.pc) != Some(n) ==>
          n in a.pushers && a.pushers[n] == o.sh.pushers[n] && PushOf(p) != Some(n))
    && (PushOf(o.pc).Some? ==> PushOf(o.pc).value in o.sh.pushers && o.sh.pushers[PushOf(o.pc).value] == i)
    && (forall n :: n in o.sh.poppers && PopOf(o.pc) != Some(n) ==>
          n in a.poppers && a.poppers[n] == o.sh.poppers[n] && PopOf(p) != Some(n))
    && (PopOf(o.pc).Some? ==> PopOf(o.pc).value in o.sh.poppers && o.sh.poppers[PopOf(o.pc).value] == i)
  }

  lemma PushRecords(a: Shared, i: nat, p: PushPc, c: nat)
    requires Shaped(a) && |a.pushed| == a.tail && PushInv(a, i, p)
    ensures Recorded(a, i, OnPush(p), DoPush(a, i, p, c))
  {
  }

  lemma PopRecords(a: Shared, i: nat, p: PopPc, c: nat)
    requires Shaped(a) && |a.pushed| == a.tail && PoppingInv(a, i, p)
    ensures Recorded(a, i, OnPop(p), DoPop(a, i, p, c))
  {
  }

  lemma StepRecords(a: Shared, i: nat, p: Pc, c: nat)
    requires SharedInv(a) && ThreadInv(a, i, p)
    ensures Recorded(a, i, p, Do(a, i, p, c))
  {
    if p.OnPush? {
      PushRecords(a, i, p.push, c);
    } else if p.OnPop? {
      PopRecords(a, i, p.pop, c);
    }
  }

  lemma MannedAfter(s: State, i: nat, o: Out)
    requires Manned(s) && i < |s.pcs| && Recorded(s.sh, i, s.pcs[i], o)
    ensures Manned(State(o.sh, s.pcs[i := o.pc]))
  {
  }

  lemma MoveKeeps(s: State, move: (nat, nat))
    requires Inv(s)
    ensures Inv(Move(s, move))
  {
    if move.0 < |s.pcs| {
      var t := Move(s, move);
      Step(s.sh, move.0, s.pcs[move.0], move.1);
      StepRecords(s.sh, move.0, s.pcs[move.0], move.1);
      MannedAfter(s, move.0, Do(s.sh, move.0, s.pcs[move.0], move.1));
      forall j: nat | j < |t.pcs| ensures ThreadInv(t.sh, j, t.pcs[j]) {
        if j != move.0 {
          OthersKeep(s.sh, t.sh, move.0, j, s.pcs[j]);
        }
      }
    }
  }

  lemma {:induction false} RunKeeps(s: State, moves: seq<(nat, nat)>)
    requires Inv(s)
    ensures Inv(Execute(s, moves))
    decreases |moves|
  {
    if moves != [] {
      MoveKeeps(s, moves[0]);
      RunKeeps(Move(s, moves[0]), moves[1..]);
    }
  }

  lemma InitInv(s: State)
    requires Init(s)
    ensures Inv(s)
  {
    forall k: nat | k < s.sh.cap ensures SlotInv(s.sh, k) {
      assert s.sh.slots[k] == Slot(Free(k), None);
      Laps.Unique(s.sh.cap, 0, k);
    }
  }

  lemma Reachable(s: State, moves: seq<(nat, nat)>)
    requires Init(s)
    ensures Inv(Execute(s, moves))
  {
    InitInv(s);
    RunKeeps(s, moves);
  }

  // ---------------------------------------------------------------- theorems

  /** One FIFO of bounded capacity: at most `cap` positions are claimed and not yet
      released to pushers, and position `n` yields exactly the value claimed for it;
      every position below the head has been read, or a thread is about to read it. */
  lemma FifoOrder(s: State, moves: seq<(nat, nat)>)
    requires Init(s)
    ensures var t := Execute(s, moves);
            var a := t.sh;
            && |a.pushed| == a.tail && a.head <= a.tail <= a.head + a.cap
            && (forall n :: n in a.popped ==> n < a.head && a.popped[n] == a.pushed[n])
            && (forall n: nat :: n < a.head && n !in a.popped ==>
                  exists i :: 0 <= i < |t.pcs| && t.pcs[i] == OnPop(PopRead(n)))
  {
    Reachable(s, moves);
    var t := Execute(s, moves);
    forall n: nat | n < t.sh.head && n !in t.sh.popped
      ensures exists i :: 0 <= i < |t.pcs| && t.pcs[i] == OnPop(PopRead(n))
    {
      var i := t.sh.poppers[n];
      assert PopOf(t.pcs[i]) == Some(n) && ThreadInv(t.sh, i, t.pcs[i]);
      assert t.pcs[i] == OnPop(PopRead(n));
    }
  }

  /** Each value comes out at most once: whoever is about to read a position is the only
      one working on it, and finds that it has not been read before. */
  lemma PoppedOnce(s: State, moves: seq<(nat, nat)>, i: nat, n: nat)
    requires Init(s) && i < |s.pcs| && Execute(s, moves).pcs[i] == OnPop(PopRead(n))
    ensures var t := Execute(s, moves);
            n !in t.sh.popped && forall j :: 0 <= j < |t.pcs| && j != i ==> Touches(t.pcs[j]) != Some(n)
  {
    Reachable(s, moves);
    var t := Execute(s, moves);
    assert ThreadInv(t.sh, i, t.pcs[i]);
    forall j | 0 <= j < |t.pcs| && j != i ensures Touches(t.pcs[j]) != Some(n) {
      SlotExclusive(s, moves, i, j);
    }
  }

  /** The position whose slot a thread at this point accesses. */
  function Touches(p: Pc): Option<nat> { if PushOf(p).Some? then PushOf(p) else PopOf(p) }

  /** No slot is ever accessed by two threads together. */
  lemma SlotExclusive(s: State, moves: seq<(nat, nat)>, i: nat, j: nat)
    requires Init(s) && i < |s.pcs| && j < |s.pcs| && i != j
    ensures var t := Execute(s, moves);
            Touches(t.pcs[i]).Some? && Touches(t.pcs[j]).Some? ==>
              Touches(t.pcs[i]).value % t.sh.cap != Touches(t.pcs[j]).value % t.sh.cap
  {
    Reachable(s, moves);
    var t := Execute(s, moves);
    assert ThreadInv(t.sh, i, t.pcs[i]) && ThreadInv(t.sh, j, t.pcs[j]);
    if Touches(t.pcs[i]).Some? && Touches(t.pcs[j]).Some? {
      var n, m := Touches(t.pcs[i]).value, Touches(t.pcs[j]).value;
      assert n in t.sh.pushers || n in t.sh.poppers;
      assert m in t.sh.pushers || m in t.sh.poppers;
      OneStamp(t.sh, n, m);
    }
  }

  lemma OneStamp(a: Shared, n: nat, m: nat)
    requires Shaped(a)
    ensures n % a.cap == m % a.cap ==> StampAt(a, n) == StampAt(a, m)
  {
  }

  /** A popper that reads finds an initialised value: the one pushed at its position. */
  lemma ReadsInitialised(s: State, moves: seq<(nat, nat)>, i: nat)
    requires Init(s) && i < |s.pcs|
    ensures var t := Execute(s, moves);
            forall n: nat :: t.pcs[i] == OnPop(PopRead(n)) ==>
              n < |t.sh.pushed| && ValueAt(t.sh, n) == Some(t.sh.pushed[n])
  {
    Reachable(s, moves);
    var t := Execute(s, moves);
    assert ThreadInv(t.sh, i, t.pcs[i]);
    forall n: nat | t.pcs[i] == OnPop(PopRead(n))
      ensures n < |t.sh.pushed| && ValueAt(t.sh, n) == Some(t.sh.pushed[n])
    {
      assert SlotInv(t.sh, Index(t.sh, n));
    }
  }

  /** Each refusal and each length is true at an instant inside the call that gives
      it: full, empty and closed at the deciding step, a length when head was loaded. */
  ghost predicate Truthful(a: Shared, p: Pc, r: Answer) {
    match r
    case Pushed(n) => p.OnPush? && n < |a.pushed| && a.pushed[n] == p.push.v
    case WasFull => a.tail == a.head + a.cap
    case WasEmpty => a.tail == a.head && a.closed.Off?
    case WasClosed => a.closed.On? && (p.OnPop? ==> a.tail == a.head)
    case Popped(n, x) => n < |a.pushed| && a.pushed[n] == x
    case Length(len) => p.OnLen? && p.len.LenCheck? && len == p.len.seen && 0 <= len <= a.cap
    case Closing(first) => first.On? <==> a.closed.Off?
  }

  lemma AnswersAreTrue(s: State, moves: seq<(nat, nat)>, move: (nat, nat))
    requires Init(s) && move.0 < |s.pcs|
    ensures var t := Execute(s, moves);
            var u := Move(t, move);
            !t.pcs[move.0].Said? && u.pcs[move.0].Said? ==> Truthful(t.sh, t.pcs[move.0], u.pcs[move.0].answer)
  {
    Reachable(s, moves);
    var t := Execute(s, moves);
    var p := t.pcs[move.0];
    assert ThreadInv(t.sh, move.0, p);
    if p.OnLen? && p.len.LenCheck? && p.len.t == t.sh.tail {
      LenExact(t.sh.cap, p.len.h, p.len.t);
    } else if p.OnPop? && p.pop.PopStamp? {
      assert p.pop.n in t.sh.popped;
    }
  }

  lemma LenExact(cap: nat, h: nat, t: nat)
    requires cap > 0 && h <= t <= h + cap
    ensures LenOf(cap, h, t) == t - h
  {
    Laps.Wrapped(cap, h, t - h);
  }

  /** Nothing is accepted after close, in any run from any state. */
  lemma {:induction false} ClosedForGood(s: State, moves: seq<(nat, nat)>)
    requires Shaped(s.sh) && s.sh.closed.On?
    ensures Execute(s, moves).sh.closed.On? && Execute(s, moves).sh.pushed == s.sh.pushed
    ensures Execute(s, moves).sh.tail == s.sh.tail
    decreases |moves|
  {
    if moves != [] {
      ClosedForGood(Move(s, moves[0]), moves[1..]);
    }
  }

  // ---------------------------------------------------------------- drop

  /** Nobody is inside an operation, as when the queue itself is dropped. */
  predicate Quiet(s: State) { forall i :: 0 <= i < |s.pcs| ==> s.pcs[i] == Idle }

  /** What an idle ring looks like to `Drop`: no claim is in progress. */
  ghost predicate Settled(a: Shared) { SharedInv(a) && a.pushers == map[] && a.poppers == map[] }

  lemma QuietIsSettled(s: State, moves: seq<(nat, nat)>)
    requires Init(s) && Quiet(Execute(s, moves))
    ensures Settled(Execute(s, moves).sh)
  {
    Reachable(s, moves);
    var t := Execute(s, moves);
    forall n: nat ensures n !in t.sh.pushers && n !in t.sh.poppers {
      Unmanned(t, n);
    }
  }

  lemma Unmanned(s: State, n: nat)
    requires Manned(s) && Quiet(s)
    ensures n !in s.sh.pushers && n !in s.sh.poppers
  {
  }

  /** Over a whole life of the ring, every value ever accepted is either popped, with its
      own value, or visited by the final drop, and none is both. */
  lemma EveryValueOnce(s: State, moves: seq<(nat, nat)>, n: nat)
    requires Init(s) && Quiet(Execute(s, moves))
    ensures var a := Execute(s, moves).sh;
            && (n < |a.pushed| <==> n in a.popped || a.head <= n < a.tail)
            && !(n in a.popped && a.head <= n < a.tail)
            && (n in a.popped ==> a.popped[n] == a.pushed[n])
  {
    QuietIsSettled(s, moves);
  }

  /** `Drop` on an idle ring: reads the slots from the head's index on, wrapping at the
      end of the ring, and so visits the queue's values in order. */
  method Drop(a: Shared) returns (dropped: seq<int>)
    requires Settled(a)
    ensures dropped == a.pushed[a.head..a.tail]
  {
    LenExact(a.cap, a.head, a.tail);
    var hix := a.head % a.cap;
    var len := LenOf(a.cap, a.head, a.tail);
    dropped := [];
    for i := 0 to len
      invariant dropped == a.pushed[a.head..a.head + i]
    {
      var index := if hix + i < a.cap then hix + i else hix + i - a.cap;
      Visits(a, i);
      dropped := dropped + [a.slots[index].value.value];
    }
  }

  /** The slot visited in round `i` holds the `i`-th value from the head. */
  lemma Visits(a: Shared, i: nat)
    requires Settled(a) && a.head + i < a.tail
    ensures var hix := a.head % a.cap;
            var index := if hix + i < a.cap then hix + i else hix + i - a.cap;
            0 <= index < a.cap && a.slots[index].value == Some(a.pushed[a.head + i])
  {
    Laps.Wrapped(a.cap, a.head, i);
    Holds(a, a.head + i);
  }

  /** With no claim in progress, every position between head and tail is full. */
  lemma Holds(a: Shared, n: nat)
    requires Settled(a) && a.head <= n < a.tail
    ensures StampAt(a, n) == Full(n) && ValueAt(a, n) == Some(a.pushed[n])
  {
    var k := Index(a, n);
    assert SlotInv(a, k);
    Laps.SameIndex(a.cap, a.slots[k].stamp.n, n);
  }
}
