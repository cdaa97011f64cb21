/** Length and destruction of the unbounded queue: how many values lie between head
    and tail, and that dropping an idle queue visits exactly those and frees every
    block that poppers have not freed. */
module UnboundedDrop {
  import opened Tally
  import opened UnboundedQueue
  import opened UnboundedProof

  // ---------------------------------------------------------------- counting slots

  lemma {:induction false} SlotsLength(h: nat, t: nat)
    requires h <= t
    ensures |Slots(h, t)| == (t - t / LAP) - (h - h / LAP)
    decreases t
  {
    if h < t {
      SlotsLength(h, t - 1);
    }
  }

  lemma {:induction false} SlotsExact(h: nat, t: nat, n: nat)
    ensures n in Slots(h, t) <==> h <= n < t && IsSlot(n)
    decreases t
  {
    if h < t {
      SlotsExact(h, t - 1, n);
    }
  }

  /** Positions are visited in ascending order. */
  lemma {:induction false} SlotsAscend(h: nat, t: nat)
    ensures Distinct(Slots(h, t)) && forall k :: 0 <= k < |Slots(h, t)| ==> Slots(h, t)[k] < t
    decreases t
  {
    if h < t {
      SlotsAscend(h, t - 1);
    }
  }

  /** Skipping a hand-over position does not change the count. */
  lemma SkipHandOver(h: nat, t: nat)
    requires h <= t
    ensures Past(h) <= Past(t) && |Slots(h, t)| == (Past(t) - Past(t) / LAP) - (Past(h) - Past(h) / LAP)
  {
    SlotsLength(h, t);
  }

  /** Counting may start at the beginning of the head's lap. */
  lemma FromLapStart(h: nat, t: nat)
    requires h <= t
    ensures var lap := h / LAP; lap * LAP <= h && (t - lap * LAP) / LAP == t / LAP - lap
  {
  }

  /** `len` on a pair of positions: exactly the value positions between head and tail,
      wherever in a block either of them stands. */
  lemma LenExact(h: nat, t: nat)
    requires h <= t
    ensures LenOf(h, t) == |Slots(h, t)|
  {
    SkipHandOver(h, t);
    FromLapStart(Past(h), Past(t));
  }

  /** The length `len` answers is the true one at the instant it loaded the head. */
  lemma LengthIsTrue(s: State, moves: seq<(nat, nat)>, i: nat, c: nat)
    requires Init(s) && i < |Execute(s, moves).pcs| && Execute(s, moves).pcs[i].OnLen?
    ensures var p := Execute(s, moves).pcs[i].len;
            var q := Move(Execute(s, moves), (i, c)).pcs[i];
            q.Said? ==> p.LenCheck? && q.answer == Length(p.seen)
  {
    AnswersAreTrue(s, moves, i, c);
    var p := Execute(s, moves).pcs[i].len;
    if Move(Execute(s, moves), (i, c)).pcs[i].Said? {
      LenExact(p.h, p.t);
    }
  }

  lemma EvenPart(w: nat)
    ensures (w - w % 2) / 2 == w / 2 && w - w % 2 == 2 * (w / 2)
  {
  }

  /** The arithmetic of `len` on index words, low bits included. */
  method Len(headWord: nat, tailWord: nat) returns (r: int)
    requires headWord / 2 <= tailWord / 2
    ensures r == |Slots(headWord / 2, tailWord / 2)|
  {
    EvenPart(headWord);
    EvenPart(tailWord);
    var tail := tailWord - tailWord % 2;
    var head := headWord - headWord % 2;
    if (tail / 2) % LAP == LAP - 1 {
      tail := tail + 2;
    }
    if (head / 2) % LAP == LAP - 1 {
      head := head + 2;
    }
    ghost var h, t := Past(headWord / 2), Past(tailWord / 2);
    assert head == 2 * h && tail == 2 * t;
    var lap := (head / 2) / LAP;
    tail := tail - (lap * LAP) * 2;
    head := head - (lap * LAP) * 2;
    tail := tail / 2;
    head := head / 2;
    assert lap == h / LAP && head == h - lap * LAP && tail == t - lap * LAP;
    r := tail - head - tail / LAP;
    LenExact(headWord / 2, tailWord / 2);
  }

  // ---------------------------------------------------------------- block ends

  /** A hand-over position at the head or tail, or a missing `next`, is the business
      of the thread that claimed the last slot of that block. */
  ghost predicate EndInv(a: Shared) {
    && (forall k: nat :: At(k, 32) <= a.tail ==> k in a.linked || At(k, 30) in a.pushers)
    && (!IsSlot(a.tail) ==> a.tail - 1 in a.pushers)
    && (!IsSlot(a.head) ==> a.head - 1 in a.poppers)
  }

  predicate PastEnd(a: Shared, p: Pc) {
    match p
    case OnPush(PushWrite(_, n, blk)) => Offset(n) == 30 ==> blk in a.linked
    case OnPush(PushMark(_, n, blk)) => Offset(n) == 30 ==> blk in a.linked
    case OnPop(PopWait(n, _)) => Offset(n) == 30 ==> n + 2 <= a.head
    case OnPop(PopRead(n, _)) => Offset(n) == 30 ==> n + 2 <= a.head
    case OnPop(FreeLoad(n, _, _)) => Offset(n) == 30 ==> n + 2 <= a.head
    case OnPop(FreeOr(n, _, _)) => Offset(n) == 30 ==> n + 2 <= a.head
    case _ => true
  }

  /** Only the thread that claimed a block's last slot completes that block's end. */
  lemma MarkEnds(a: Shared, n: nat, k: nat)
    requires EndInv(a) && IsSlot(n) && (Offset(n) == 30 ==> Lap(n) in a.linked) && At(k, 32) <= a.tail
    ensures k in a.linked || At(k, 30) in Without(a.pushers, n)
  {
    if At(k, 30) == n {
      assert k == Lap(n);
    }
  }

  lemma PushEnds(a: Shared, i: nat, p: PushPc, c: nat)
    requires TailInv(a) && PushInv(a, i, p) && EndInv(a) && PastEnd(a, OnPush(p))
    requires !p.PushMark? && !p.PushLoop?
    ensures var o := DoPush(a, i, p, c); EndInv(o.sh) && PastEnd(o.sh, o.pc)
  {
    match p
    case PushSkip(v, n, blk) =>
      var b := DoPush(a, i, p, c).sh;
      forall k: nat | At(k, 32) <= b.tail ensures k in b.linked || At(k, 30) in b.pushers {
        if At(k, 32) > a.tail {
          assert At(k, 30) == n;
        }
      }
    case PushLink(v, n, blk) =>
    case _ =>
  }

  lemma MarkedEnds(a: Shared, b: Shared, n: nat)
    requires EndInv(a) && IsSlot(n) && (Offset(n) == 30 ==> Lap(n) in a.linked && n + 2 <= a.tail)
    requires b.tail == a.tail && b.linked == a.linked && b.pushers == Without(a.pushers, n)
    requires b.head == a.head && b.poppers == a.poppers
    ensures EndInv(b)
  {
    forall k: nat | At(k, 32) <= b.tail ensures k in b.linked || At(k, 30) in b.pushers {
      MarkEnds(a, n, k);
    }
  }

  lemma PushMarkEnds(a: Shared, i: nat, p: PushPc, c: nat)
    requires TailInv(a) && PushInv(a, i, p) && EndInv(a) && PastEnd(a, OnPush(p)) && p.PushMark?
    ensures var o := DoPush(a, i, p, c); EndInv(o.sh) && PastEnd(o.sh, o.pc)
  {
    assert Offset(p.n) == 30 ==> At(p.blk, 32) <= a.tail;
    MarkedEnds(a, DoPush(a, i, p, c).sh, p.n);
  }

  lemma WinEnds(a: Shared, i: nat, t: nat, v: int)
    requires EndInv(a) && a.tail == t && IsSlot(t)
    ensures EndInv(TailClaimed(a, i, t, v))
  {
    var b := TailClaimed(a, i, t, v);
    forall k: nat | At(k, 32) <= b.tail ensures k in b.linked || At(k, 30) in b.pushers {
      assert At(k, 32) <= a.tail;
    }
  }

  lemma PushTryEnds(a: Shared, i: nat, p: PushPc, c: nat)
    requires TailInv(a) && PushInv(a, i, p) && EndInv(a) && PastEnd(a, OnPush(p)) && p.PushLoop?
    ensures var o := DoPush(a, i, p, c); EndInv(o.sh) && PastEnd(o.sh, o.pc)
  {
    if Wins(a, p, c) {
      WinEffect(a, i, p, c);
      WinEnds(a, i, p.t, p.v);
    } else {
      RetryEnds(a, i, p, c);
    }
  }

  lemma RetryEnds(a: Shared, i: nat, p: PushPc, c: nat)
    requires EndInv(a) && p.PushLoop? && !Wins(a, p, c)
    ensures var o := DoPush(a, i, p, c); EndInv(o.sh) && PastEnd(o.sh, o.pc)
  {
  }

  predicate HeadEnd(a: Shared) { !IsSlot(a.head) ==> a.head - 1 in a.poppers }

  lemma PopFinishEnds(a: Shared, i: nat, p: PopPc, c: nat)
    requires PoppingInv(a, i, p) && PastEnd(a, OnPop(p)) && HeadEnd(a) && MayFinish(p)
    ensures var o := DoPop(a, i, p, c); HeadEnd(o.sh) && PastEnd(o.sh, o.pc)
  {
  }

  lemma PopHeadEnds(a: Shared, i: nat, p: PopPc, c: nat)
    requires PopInv(a) && PoppingInv(a, i, p) && PastEnd(a, OnPop(p)) && HeadEnd(a)
    ensures var o := DoPop(a, i, p, c); HeadEnd(o.sh) && PastEnd(o.sh, o.pc)
  {
    if MayFinish(p) {
      PopFinishEnds(a, i, p, c);
    }
  }

  lemma PopEnds(a: Shared, i: nat, p: PopPc, c: nat)
    requires PopInv(a) && PoppingInv(a, i, p) && EndInv(a) && PastEnd(a, OnPop(p))
    ensures var o := DoPop(a, i, p, c); EndInv(o.sh) && PastEnd(o.sh, o.pc)
  {
    PopLeavesTail(a, i, p, c);
    PopHeadEnds(a, i, p, c);
  }

  ghost predicate Ends(s: State) {
    && Inv(s) && EndInv(s.sh)
    && forall i :: 0 <= i < |s.pcs| ==> PastEnd(s.sh, s.pcs[i])
  }

  lemma EndStep(a: Shared, i: nat, p: Pc, c: nat)
    requires SharedInv(a) && ThreadInv(a, i, p) && EndInv(a) && PastEnd(a, p)
    ensures var o := Do(a, i, p, c); EndInv(o.sh) && PastEnd(o.sh, o.pc)
  {
    if p.OnPush? {
      if p.push.PushMark? {
        PushMarkEnds(a, i, p.push, c);
      } else if p.push.PushLoop? {
        PushTryEnds(a, i, p.push, c);
      } else {
        PushEnds(a, i, p.push, c);
      }
    } else if p.OnPop? {
      PopEnds(a, i, p.pop, c);
    } else {
      OtherEnds(a, i, p, c);
    }
  }

  lemma OtherEnds(a: Shared, i: nat, p: Pc, c: nat)
    requires EndInv(a) && !p.OnPush? && !p.OnPop?
    ensures var o := Do(a, i, p, c); EndInv(o.sh) && PastEnd(o.sh, o.pc)
  {
  }

  lemma PastEndKept(a: Shared, b: Shared, p: Pc)
    requires PastEnd(a, p) && a.linked <= b.linked && a.head <= b.head
    ensures PastEnd(b, p)
  {
  }

  lemma EndsStep(s: State, i: nat, c: nat)
    requires Ends(s) && i < |s.pcs|
    ensures Ends(Move(s, (i, c)))
  {
    var t := Move(s, (i, c));
    assert Inv(t) by {
      StepKeeps(s, i, c);
    }
    assert s.sh.linked <= t.sh.linked && s.sh.head <= t.sh.head by {
      StepGood(s.sh, i, s.pcs[i], c);
    }
    EndStep(s.sh, i, s.pcs[i], c);
    forall j | 0 <= j < |t.pcs| ensures PastEnd(t.sh, t.pcs[j]) {
      if j != i {
        PastEndKept(s.sh, t.sh, s.pcs[j]);
      }
    }
  }

  lemma {:induction false} EndsRun(s: State, moves: seq<(nat, nat)>)
    requires Ends(s)
    ensures Ends(Execute(s, moves))
    decreases |moves|
  {
    if moves != [] {
      if moves[0].0 < |s.pcs| {
        EndsStep(s, moves[0].0, moves[0].1);
      }
      EndsRun(Move(s, moves[0]), moves[1..]);
    }
  }

  // ---------------------------------------------------------------- drop

  /** Nobody is inside an operation, as when the queue itself is dropped. */
  predicate Quiet(s: State) { forall i :: 0 <= i < |s.pcs| ==> s.pcs[i] == Idle }

  /** What an idle queue looks like to `Drop`. */
  ghost predicate Settled(a: Shared) {
    && a.head <= a.tail && IsSlot(a.head) && IsSlot(a.tail)
    && (a.headBlock == if a.tailBlock.None? then None else Some(Lap(a.head)))
    && (a.tailBlock.None? ==> a.tail == 0)
    && (forall k: nat :: k < Lap(a.tail) <==> k in a.linked)
    && (forall n: nat :: n < a.tail && IsSlot(n) ==> n in a.vals && n in a.claimed && a.vals[n] == a.claimed[n])
    && (forall n: nat :: n in a.popped <==> n < a.head && IsSlot(n))
    && (forall k: nat :: a.frees[k] == (if k < Lap(a.head) then 1 else 0))
  }

  predicate NoClaims(a: Shared) { a.pushers == map[] && a.poppers == map[] }

  lemma LinksSettled(a: Shared, k: nat)
    requires TailInv(a) && EndInv(a) && NoClaims(a)
    ensures k < Lap(a.tail) <==> k in a.linked
  {
    if k < Lap(a.tail) || k in a.linked {
      assert At(k, 32) <= a.tail;
    }
  }

  lemma PopsSettled(a: Shared, n: nat)
    requires PopInv(a) && NoClaims(a)
    ensures n in a.popped ==> n < a.head
    ensures n < a.head && IsSlot(n) ==> n in a.popped
  {
    if n < a.head && IsSlot(n) {
      assert Finished(a, n);
    }
  }

  lemma PassedIsFreed(a: Shared, k: nat)
    requires PopInv(a) && TokensInv(a) && NoClaims(a) && At(k, 31) <= a.head
    ensures a.frees[k] == 1
  {
    forall o: nat | o < 31 ensures Finished(a, At(k, o)) {
      assert IsSlot(At(k, o)) && At(k, o) < a.head;
    }
    AllFinished(a, k);
  }

  lemma AheadIsNotFreed(a: Shared, k: nat)
    requires PopInv(a) && TokensInv(a) && a.head <= At(k, 30)
    ensures a.frees[k] == 0
  {
    assert At(k, 30) !in a.popped;
    assert TokenInv(a, k);
  }

  lemma FreesSettled(a: Shared, k: nat)
    requires PopInv(a) && TokensInv(a) && NoClaims(a) && IsSlot(a.head)
    ensures a.frees[k] == (if k < Lap(a.head) then 1 else 0)
  {
    if k < Lap(a.head) {
      PassedIsFreed(a, k);
    } else {
      AheadIsNotFreed(a, k);
    }
  }

  lemma ValuesSettled(a: Shared)
    requires TailInv(a) && HeadInv(a) && EndInv(a) && NoClaims(a) && a.installer.None?
    ensures a.head <= a.tail && IsSlot(a.head) && IsSlot(a.tail)
    ensures a.headBlock == if a.tailBlock.None? then None else Some(Lap(a.head))
    ensures a.tailBlock.None? ==> a.tail == 0
    ensures forall n: nat :: n < a.tail && IsSlot(n) ==> n in a.vals && n in a.claimed && a.vals[n] == a.claimed[n]
  {
  }

  lemma AllSettled(a: Shared)
    requires SharedInv(a) && EndInv(a) && NoClaims(a) && IsSlot(a.head)
    ensures forall k: nat :: k < Lap(a.tail) <==> k in a.linked
    ensures forall n: nat :: n in a.popped <==> n < a.head && IsSlot(n)
    ensures forall k: nat :: a.frees[k] == (if k < Lap(a.head) then 1 else 0)
  {
    forall k: nat ensures k < Lap(a.tail) <==> k in a.linked {
      LinksSettled(a, k);
    }
    forall k: nat ensures a.frees[k] == (if k < Lap(a.head) then 1 else 0) {
      FreesSettled(a, k);
    }
    forall n: nat ensures n in a.popped <==> n < a.head && IsSlot(n) {
      PopsSettled(a, n);
    }
  }

  lemma NobodyWorks(s: State)
    requires Manned(s) && Quiet(s)
    ensures NoClaims(s.sh) && s.sh.installer.None?
  {
    assert forall n :: n !in s.sh.pushers && n !in s.sh.poppers;
  }

  /** Every idle state of every run is as `Drop` expects it: all positions below the
      head popped, all blocks below the head's freed, everything else in place. */
  lemma QuietIsSettled(s: State, moves: seq<(nat, nat)>)
    requires Init(s) && Quiet(Execute(s, moves))
    ensures Settled(Execute(s, moves).sh)
  {
    EndsRun(s, moves);
    var t := Execute(s, moves);
    NobodyWorks(t);
    ValuesSettled(t.sh);
    AllSettled(t.sh);
  }

  /** The laps from `k` up to and including `last`. */
  function Laps(k: nat, last: nat): seq<nat>
    decreases last
  {
    if last < k then [] else if last == 0 then [0] else Laps(k, last - 1) + [last]
  }

  /** The value positions below `head` have been visited and their values dropped. */
  ghost predicate DroppedTo(a: Shared, head: nat, values: seq<int>, visited: seq<nat>) {
    && visited == Slots(a.head, head) && |values| == |visited|
    && forall k :: 0 <= k < |visited| ==> visited[k] in a.claimed && values[k] == a.claimed[visited[k]]
  }

  lemma DropNext(a: Shared, head: nat, values: seq<int>, visited: seq<nat>)
    requires Settled(a) && a.head <= head < a.tail && DroppedTo(a, head, values, visited)
    ensures IsSlot(head) ==>
              head in a.vals && DroppedTo(a, head + 1, values + [a.vals[head]], visited + [head])
    ensures !IsSlot(head) ==> DroppedTo(a, head + 1, values, visited)
  {
  }

  /** `Drop for Unbounded` on an idle queue: it drops the values still queued, in
      order, and frees the blocks from the head's to the tail's, in order. */
  method Drop(a: Shared) returns (values: seq<int>, ghost visited: seq<nat>, freed: seq<nat>)
    requires Settled(a)
    ensures visited == Slots(a.head, a.tail) && |values| == |visited|
    ensures forall k :: 0 <= k < |visited| ==> visited[k] in a.claimed && values[k] == a.claimed[visited[k]]
    ensures freed == if a.tailBlock.None? then [] else Laps(Lap(a.head), Lap(a.tail))
  {
    var head := a.head;
    var block := a.headBlock;
    values, visited, freed := [], [], [];
    while head != a.tail
      invariant a.head <= head <= a.tail && DroppedTo(a, head, values, visited)
      invariant block == if a.tailBlock.None? then None else Some(Lap(head))
      invariant freed == if Lap(head) == 0 then [] else Laps(Lap(a.head), Lap(head) - 1)
      decreases a.tail - head
    {
      DropNext(a, head, values, visited);
      var offset := Offset(head);
      if offset < BLOCK_CAP {
        assert At(block.value, offset) == head;
        values := values + [a.vals[At(block.value, offset)]];
        visited := visited + [head];
      } else {
        var next := if block.value in a.linked then Some(block.value + 1) else None;
        freed := freed + [block.value];
        block := next;
      }
      head := head + 1;
    }
    if block.Some? {
      freed := freed + [block.value];
    }
  }

  lemma {:induction false} LapsExact(k: nat, last: nat)
    ensures |Laps(k, last)| == (if last < k then 0 else last - k + 1)
    ensures forall i :: 0 <= i < |Laps(k, last)| ==> Laps(k, last)[i] == k + i
    decreases last
  {
    if k <= last && last > 0 {
      LapsExact(k, last - 1);
    }
  }

  /** Over a whole life of the queue, popping plus the final drop frees every block
      ever installed exactly once. */
  lemma EveryBlockFreedOnce(s: State, moves: seq<(nat, nat)>, k: nat)
    requires Init(s) && Quiet(Execute(s, moves))
    ensures var a := Execute(s, moves).sh;
            a.tailBlock.Some? ==>
              a.frees[k] + multiset(Laps(Lap(a.head), Lap(a.tail)))[k] == (if k <= Lap(a.tail) then 1 else 0)
  {
    QuietIsSettled(s, moves);
    var a := Execute(s, moves).sh;
    var laps := Laps(Lap(a.head), Lap(a.tail));
    LapsExact(Lap(a.head), Lap(a.tail));
    CountRange(laps, Lap(a.head), k);
  }

  /** And every value ever accepted is either popped or visited by the final drop, which
      visits no position twice. */
  lemma EveryValueOnce(s: State, moves: seq<(nat, nat)>, n: nat)
    requires Init(s) && Quiet(Execute(s, moves))
    ensures var a := Execute(s, moves).sh;
            && (n in a.claimed <==> n in a.popped || n in Slots(a.head, a.tail))
            && !(n in a.popped && n in Slots(a.head, a.tail))
            && Distinct(Slots(a.head, a.tail))
  {
    QuietIsSettled(s, moves);
    Reachable(s, moves);
    var a := Execute(s, moves).sh;
    SlotsExact(a.head, a.tail, n);
    SlotsAscend(a.head, a.tail);
  }

  lemma {:induction false} CountRange(laps: seq<nat>, from: nat, k: nat)
    requires forall i :: 0 <= i < |laps| ==> laps[i] == from + i
    ensures multiset(laps)[k] == (if from <= k < from + |laps| then 1 else 0)
  {
    if laps != [] {
      var last := |laps| - 1;
      CountRange(laps[..last], from, k);
      assert laps == laps[..last] + [laps[last]];
    }
  }
}
