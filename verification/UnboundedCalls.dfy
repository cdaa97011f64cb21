/** Whole calls on the unbounded queue: what `close` means for every later push, and that a
    call that runs alone does what it does on a first-in first-out queue of values. */
module UnboundedCalls {
  import opened Tally
  import opened Solo
  import opened UnboundedQueue
  import opened UnboundedProof
  import opened UnboundedDrop

  // ---------------------------------------------------------------- close

  /** The first answer thread `i` gives from `s` on. */
  ghost function FirstAnswer(s: State, moves: seq<(nat, nat)>, i: nat): Option<Answer>
    decreases |moves|
  {
    if i < |s.pcs| && s.pcs[i].Said? then Some(s.pcs[i].answer)
    else if moves == [] then None
    else FirstAnswer(Move(s, moves[0]), moves[1..], i)
  }

  /** A push that has loaded, or will load, the tail of a closed queue. */
  predicate Late(p: Pc) {
    match p
    case OnPush(PushLoad(_)) => true
    case OnPush(PushBlock(_, _, cl)) => cl.On?
    case OnPush(PushLoop(_, _, cl, _)) => cl.On?
    case Said(r) => r == WasClosed
    case _ => false
  }

  lemma {:induction false} LateIsRefused(s: State, moves: seq<(nat, nat)>, i: nat)
    requires s.sh.closed.On? && i < |s.pcs| && Late(s.pcs[i])
    ensures FirstAnswer(s, moves, i) == None || FirstAnswer(s, moves, i) == Some(WasClosed)
    decreases |moves|
  {
    if moves != [] && !s.pcs[i].Said? {
      ClosedForGood(s, [moves[0]]);
      assert Execute(s, [moves[0]]) == Execute(Move(s, moves[0]), []);
      LateIsRefused(Move(s, moves[0]), moves[1..], i);
    }
  }

  /** The step of `close` closes the queue, and answers true exactly if it was open. From
      then on, through every interleaving, nothing is accepted, and a push that starts
      after it can only answer that the queue is closed. */
  lemma CloseRefusesLatePushes(
      s: State, before: seq<(nat, nat)>, i: nat, between: seq<(nat, nat)>, j: nat, v: int, after: seq<(nat, nat)>)
    requires Init(s) && i < |Execute(s, before).pcs| && Execute(s, before).pcs[i] == Idle
    ensures var t := Execute(s, before);
            var u := Move(t, (i, 0));
            var w := Execute(u, between);
            && u.sh == t.sh.(closed := On) && u.pcs[i] == Said(Closing(Flagged(t.sh.closed.Off?)))
            && w.sh.closed.On? && w.sh.claimed == t.sh.claimed
            && (j < |w.pcs| && w.pcs[j] == OnPush(PushLoad(v)) ==>
                  var r := FirstAnswer(w, after, j); r == None || r == Some(WasClosed))
  {
    var u := Move(Execute(s, before), (i, 0));
    ClosedForGood(u, between);
    var w := Execute(u, between);
    if j < |w.pcs| && w.pcs[j] == OnPush(PushLoad(v)) {
      LateIsRefused(w, after, j);
    }
  }

  // ---------------------------------------------------------------- contents

  function Values(m: map<nat, int>, ns: seq<nat>): (r: seq<int>)
    ensures |r| == |ns| && forall k :: 0 <= k < |ns| && ns[k] in m ==> r[k] == m[ns[k]]
  {
    if ns == [] then []
    else
      var n := ns[|ns| - 1];
      Values(m, ns[..|ns| - 1]) + [if n in m then m[n] else 0]
  }

  /** The values pushed and not yet popped, oldest first. */
  function Contents(a: Shared): seq<int> { Values(a.claimed, Slots(a.head, a.tail)) }

  lemma {:induction false} SlotsFront(h: nat, t: nat)
    requires h < t
    ensures Slots(h, t) == (if IsSlot(h) then [h] else []) + Slots(h + 1, t)
    decreases t
  {
    if h + 1 < t {
      SlotsFront(h, t - 1);
    }
  }

  lemma SlotsPushed(h: nat, t: nat)
    requires h <= t && IsSlot(t)
    ensures Slots(h, Past(t + 1)) == Slots(h, t) + [t]
  {
    assert Slots(h, t + 1) == Slots(h, t) + [t];
    if IsSlot(t + 1) {
      assert Past(t + 1) == t + 1;
    } else {
      assert Past(t + 1) == t + 2;
      assert Slots(h, t + 1) + [] == Slots(h, t + 1);
    }
  }

  lemma ValuesBack(m: map<nat, int>, n: nat, v: int, ns: seq<nat>)
    requires forall k :: 0 <= k < |ns| ==> ns[k] in m && ns[k] != n
    ensures Values(m[n := v], ns + [n]) == Values(m, ns) + [v]
  {
    var all := ns + [n];
    assert forall k :: 0 <= k < |all| ==> all[k] in m[n := v];
  }

  lemma ContentsPushed(a: Shared, b: Shared, v: int)
    requires Settled(a) && Pushes(a, b, v)
    ensures Contents(b) == Contents(a) + [v]
  {
    SlotsPushed(a.head, a.tail);
    var before := Slots(a.head, a.tail);
    forall k | 0 <= k < |before| ensures before[k] in a.claimed && before[k] != a.tail {
      SlotsExact(a.head, a.tail, before[k]);
    }
    ValuesBack(a.claimed, a.tail, v, before);
  }

  lemma SlotsPopped(h: nat, t: nat)
    requires h < t && IsSlot(h) && IsSlot(t)
    ensures Slots(h, t) == [h] + Slots(Past(h + 1), t)
  {
    SlotsFront(h, t);
    if IsSlot(h + 1) {
      assert Past(h + 1) == h + 1;
    } else {
      assert Past(h + 1) == h + 2;
      SlotsFront(h + 1, t);
      assert [] + Slots(h + 2, t) == Slots(h + 2, t);
    }
  }

  lemma ValuesFront(m: map<nat, int>, n: nat, ns: seq<nat>)
    requires n in m && forall k :: 0 <= k < |ns| ==> ns[k] in m
    ensures Values(m, [n] + ns) == [m[n]] + Values(m, ns)
  {
    var all := [n] + ns;
    assert forall k :: 0 <= k < |all| ==> all[k] in m;
  }

  lemma ContentsPopped(a: Shared, b: Shared)
    requires Settled(a) && a.head < a.tail && Pops(a, b)
    ensures a.head in a.claimed && Contents(a) == [a.claimed[a.head]] + Contents(b)
  {
    SlotsPopped(a.head, a.tail);
    var rest := Slots(b.head, b.tail);
    forall k | 0 <= k < |rest| ensures rest[k] in a.claimed {
      SlotsExact(b.head, b.tail, rest[k]);
    }
    ValuesFront(a.claimed, a.head, rest);
  }

  lemma ContentsEmpty(a: Shared)
    requires Settled(a)
    ensures Contents(a) == [] <==> a.head == a.tail
  {
    if a.head < a.tail {
      SlotsFront(a.head, a.tail);
    }
  }

  // ---------------------------------------------------------------- running alone

  function Alone(i: nat): Out -> Out { (o: Out) => Do(o.sh, i, o.pc, 1) }

  lemma {:induction false} AloneIsRun(s: State, i: nat, n: nat)
    requires i < |s.pcs|
    ensures var o := Iterate(Alone(i), Out(s.sh, s.pcs[i]), n);
            Execute(s, Own(i, 1, n)) == State(o.sh, s.pcs[i := o.pc])
    decreases n
  {
    if n > 0 {
      assert Own(i, 1, n)[1..] == Own(i, 1, n - 1);
      AloneIsRun(Move(s, (i, 1)), i, n - 1);
    }
  }

  /** A queue nobody works on. */
  ghost predicate AtRest(a: Shared) { SharedInv(a) && Settled(a) && NoClaims(a) && a.installer.None? }

  lemma RestsWhenQuiet(s: State, moves: seq<(nat, nat)>)
    requires Init(s) && Quiet(Execute(s, moves))
    ensures AtRest(Execute(s, moves).sh)
  {
    QuietIsSettled(s, moves);
    Reachable(s, moves);
    NobodyWorks(Execute(s, moves));
  }

  // ---------------------------------------------------------------- push

  predicate Pushes(a: Shared, b: Shared, v: int) {
    && b.claimed == a.claimed[a.tail := v] && b.head == a.head && b.closed == a.closed
    && b.tail == Past(a.tail + 1)
  }

  ghost predicate Runs(i: nat, a: Shared, p: Pc, b: Shared, q: Pc) { Leads(Alone(i), Out(a, p), Out(b, q)) }

  lemma Ahead(i: nat, a: Shared, p: Pc, b: Shared, q: Pc)
    requires var o := Do(a, i, p, 1); Runs(i, o.sh, o.pc, b, q)
    ensures Runs(i, a, p, b, q)
  {
    Then(Alone(i), Out(a, p), Out(b, q));
  }

  lemma Stores(i: nat, a: Shared, v: int, n: nat, blk: nat) returns (b: Shared)
    ensures Runs(i, a, OnPush(PushWrite(v, n, blk)), b, Said(Pushed(n)))
    ensures b.claimed == a.claimed && b.head == a.head && b.tail == a.tail && b.closed == a.closed
  {
    var o := Do(a, i, OnPush(PushWrite(v, n, blk)), 1);
    b := Do(o.sh, i, o.pc, 1).sh;
    Arrived(Alone(i), Out(b, Said(Pushed(n))));
    Ahead(i, o.sh, o.pc, b, Said(Pushed(n)));
    Ahead(i, a, OnPush(PushWrite(v, n, blk)), b, Said(Pushed(n)));
  }

  /** The owner of a block's last slot links the next block first. */
  lemma Links(i: nat, a: Shared, v: int, n: nat, blk: nat) returns (b: Shared)
    ensures Runs(i, a, OnPush(PushNext(v, n, blk)), b, Said(Pushed(n)))
    ensures b.claimed == a.claimed && b.head == a.head && b.tail == a.tail + 1 && b.closed == a.closed
  {
    var p := OnPush(PushNext(v, n, blk));
    var o := Do(a, i, p, 1);
    var o' := Do(o.sh, i, o.pc, 1);
    var o'' := Do(o'.sh, i, o'.pc, 1);
    b := Stores(i, o''.sh, v, n, blk);
    Ahead(i, o'.sh, o'.pc, b, Said(Pushed(n)));
    Ahead(i, o.sh, o.pc, b, Said(Pushed(n)));
    Ahead(i, a, p, b, Said(Pushed(n)));
  }

  lemma Claims(i: nat, a: Shared, v: int, blk: nat) returns (b: Shared)
    requires IsSlot(a.tail) && a.closed.Off?
    ensures Runs(i, a, OnPush(PushLoop(v, a.tail, Off, Some(blk))), b, Said(Pushed(a.tail))) && Pushes(a, b, v)
  {
    var p := OnPush(PushLoop(v, a.tail, Off, Some(blk)));
    var o := Do(a, i, p, 1);
    if Offset(a.tail) == 30 {
      b := Links(i, o.sh, v, a.tail, blk);
    } else {
      b := Stores(i, o.sh, v, a.tail, blk);
    }
    Ahead(i, a, p, b, Said(Pushed(a.tail)));
  }

  /** The first push installs the first block. */
  lemma InstallsFirst(i: nat, a: Shared, v: int) returns (b: Shared)
    requires a.tailBlock.None? && IsSlot(a.tail) && a.closed.Off?
    ensures Runs(i, a, OnPush(PushLoop(v, a.tail, Off, None)), b, Said(Pushed(a.tail))) && Pushes(a, b, v)
  {
    var p := OnPush(PushLoop(v, a.tail, Off, None));
    var o := Do(a, i, p, 1);
    var o' := Do(o.sh, i, o.pc, 1);
    b := Claims(i, o'.sh, v, 0);
    Ahead(i, o.sh, o.pc, b, Said(Pushed(a.tail)));
    Ahead(i, a, p, b, Said(Pushed(a.tail)));
  }

  lemma PushRuns(i: nat, a: Shared, v: int) returns (b: Shared)
    requires AtRest(a) && a.closed.Off?
    ensures Runs(i, a, OnPush(PushLoad(v)), b, Said(Pushed(a.tail))) && Pushes(a, b, v)
  {
    if a.tailBlock.None? {
      b := InstallsFirst(i, a, v);
    } else {
      b := Claims(i, a, v, a.tailBlock.value);
    }
    Ahead(i, a, OnPush(PushBlock(v, a.tail, Off)), b, Said(Pushed(a.tail)));
    Ahead(i, a, OnPush(PushLoad(v)), b, Said(Pushed(a.tail)));
  }

  lemma PushRefused(i: nat, a: Shared, v: int)
    requires a.closed.On?
    ensures Runs(i, a, OnPush(PushLoad(v)), a, Said(WasClosed))
  {
    Arrived(Alone(i), Out(a, Said(WasClosed)));
    Ahead(i, a, OnPush(PushLoop(v, a.tail, On, a.tailBlock)), a, Said(WasClosed));
    Ahead(i, a, OnPush(PushBlock(v, a.tail, On)), a, Said(WasClosed));
    Ahead(i, a, OnPush(PushLoad(v)), a, Said(WasClosed));
  }

  // ---------------------------------------------------------------- pop

  predicate Pops(a: Shared, b: Shared) {
    b.head == Past(a.head + 1) && b.tail == a.tail && b.claimed == a.claimed && b.closed == a.closed
  }

  /** Only the head, the claims and the bits of read slots have changed. */
  predicate SameQueue(a: Shared, b: Shared) {
    b.head == a.head && b.tail == a.tail && b.claimed == a.claimed && b.closed == a.closed
  }

  /** With every slot of the block read, freeing it needs no help. */
  lemma {:induction false} Frees(i: nat, a: Shared, n: nat, blk: nat, j: nat) returns (b: Shared)
    requires n in a.popped && AllRead(a, blk, 30) && j <= 30
    ensures Runs(i, a, OnPop(FreeLoad(n, blk, j)), b, Said(Popped(n, a.popped[n]))) && SameQueue(a, b)
    decreases 30 - j
  {
    var p := OnPop(FreeLoad(n, blk, j));
    if j == 30 {
      b := BlockFreed(a, n, blk);
      Arrived(Alone(i), Out(b, Said(Popped(n, a.popped[n]))));
    } else {
      b := Frees(i, a, n, blk, j + 1);
    }
    Ahead(i, a, p, b, Said(Popped(n, a.popped[n])));
  }

  /** The popper of a written position takes its value. */
  lemma TakesLast(i: nat, a: Shared, n: nat, blk: nat) returns (b: Shared)
    requires n == At(blk, 30) && n in a.written && n in a.vals && AllRead(a, blk, 30)
    ensures Runs(i, a, OnPop(PopWait(n, blk)), b, Said(Popped(n, a.vals[n]))) && SameQueue(a, b)
  {
    var o := TookLast(a, n, blk, a.vals[n]);
    b := Frees(i, o, n, blk, 0);
    Ahead(i, a, OnPop(PopRead(n, blk)), b, Said(Popped(n, a.vals[n])));
    Ahead(i, a, OnPop(PopWait(n, blk)), b, Said(Popped(n, a.vals[n])));
  }

  lemma TakesOther(i: nat, a: Shared, n: nat, blk: nat) returns (b: Shared)
    requires n == At(blk, Offset(n)) && Offset(n) < 30 && n in a.written && n in a.vals && n !in a.doomed
    ensures Runs(i, a, OnPop(PopWait(n, blk)), b, Said(Popped(n, a.vals[n]))) && SameQueue(a, b)
  {
    var o := Took(a, n, a.vals[n]);
    b := ReadAndLeft(o, n, blk);
    Arrived(Alone(i), Out(b, Said(Popped(n, a.vals[n]))));
    Ahead(i, o, OnPop(PopMark(n, blk)), b, Said(Popped(n, a.vals[n])));
    Ahead(i, a, OnPop(PopRead(n, blk)), b, Said(Popped(n, a.vals[n])));
    Ahead(i, a, OnPop(PopWait(n, blk)), b, Said(Popped(n, a.vals[n])));
  }

  /** The popper of a block's last slot moves the head to the next block first. */
  lemma Crosses(i: nat, a: Shared, n: nat, blk: nat) returns (b: Shared)
    requires n == At(blk, 30) && n in a.written && n in a.vals && AllRead(a, blk, 30)
    requires a.head == n + 1 && blk in a.linked
    ensures Runs(i, a, OnPop(PopNext(n, blk)), b, Said(Popped(n, a.vals[n]))) && SameQueue(a.(head := n + 2), b)
  {
    var more := Flagged(blk + 1 in a.linked);
    var o := a.(headBlock := Some(blk + 1));
    var o' := o.(head := n + 2, mark := more);
    b := TakesLast(i, o', n, blk);
    Ahead(i, o, OnPop(PopSkip(n, blk, more)), b, Said(Popped(n, a.vals[n])));
    Ahead(i, a, OnPop(PopHead(n, blk, more)), b, Said(Popped(n, a.vals[n])));
    Ahead(i, a, OnPop(PopPeek(n, blk)), b, Said(Popped(n, a.vals[n])));
    Ahead(i, a, OnPop(PopNext(n, blk)), b, Said(Popped(n, a.vals[n])));
  }

  /** What a popper finds at the head of a queue at rest that is not empty. */
  ghost predicate Takeable(a: Shared, blk: nat) {
    && a.head == At(blk, Offset(a.head)) && IsSlot(a.head)
    && a.head in a.claimed && a.head in a.written && a.head in a.vals && a.vals[a.head] == a.claimed[a.head]
    && a.head !in a.doomed
    && (Offset(a.head) == 30 ==> blk in a.linked && AllRead(a, blk, 30))
  }

  lemma HeadReady(a: Shared)
    requires AtRest(a) && a.head < a.tail
    ensures Takeable(a, Lap(a.head)) && a.headBlock == Some(Lap(a.head)) && a.head != a.tail
  {
    HeadNotDoomed(a);
    if Offset(a.head) == 30 {
      assert Lap(a.head) < Lap(a.tail);
      LapRead(a, Lap(a.head));
    }
  }

  lemma DoomedIsPassed(a: Shared, x: nat)
    requires TokensInv(a)
    ensures x in a.doomed && x !in a.read ==> At(Lap(x), 30) in a.popped
  {
    assert TokenInv(a, Lap(x));
  }

  lemma HeadNotDoomed(a: Shared)
    requires AtRest(a)
    ensures a.head !in a.doomed
  {
    assert a.head !in a.popped && a.head !in a.read;
    DoomedIsPassed(a, a.head);
  }

  lemma LapRead(a: Shared, blk: nat)
    requires PopInv(a) && NoClaims(a) && At(blk, 30) <= a.head
    ensures AllRead(a, blk, 30)
  {
    forall k | 0 <= k < 30 ensures At(blk, k) in a.read {
      assert Finished(a, At(blk, k));
    }
  }

  function AfterClaim(n: nat, blk: nat): Pc {
    OnPop(if Offset(n) == 30 then PopNext(n, blk) else PopWait(n, blk))
  }

  lemma CasEffect(i: nat, a: Shared, m: Flag, blk: nat)
    ensures Do(a, i, OnPop(PopCas(a.head, a.mark, m, Some(blk))), 1)
         == Out(HeadClaimed(a, i, a.head, m), AfterClaim(a.head, blk))
  {
  }

  lemma LastClaimed(i: nat, a: Shared, m: Flag, blk: nat) returns (b: Shared)
    requires Takeable(a, blk) && Offset(a.head) == 30
    ensures Runs(i, HeadClaimed(a, i, a.head, m), OnPop(PopNext(a.head, blk)), b,
                 Said(Popped(a.head, a.claimed[a.head])))
    ensures SameQueue(a.(head := a.head + 2), b)
  {
    b := Crosses(i, HeadClaimed(a, i, a.head, m), a.head, blk);
  }

  lemma OtherClaimed(i: nat, a: Shared, m: Flag, blk: nat) returns (b: Shared)
    requires Takeable(a, blk) && Offset(a.head) < 30
    ensures Runs(i, HeadClaimed(a, i, a.head, m), OnPop(PopWait(a.head, blk)), b,
                 Said(Popped(a.head, a.claimed[a.head])))
    ensures SameQueue(a.(head := a.head + 1), b)
  {
    b := TakesOther(i, HeadClaimed(a, i, a.head, m), a.head, blk);
  }

  lemma PopClaimed(i: nat, a: Shared, m: Flag, blk: nat) returns (b: Shared)
    requires Takeable(a, blk)
    ensures Runs(i, HeadClaimed(a, i, a.head, m), AfterClaim(a.head, blk), b, Said(Popped(a.head, a.claimed[a.head])))
    ensures Pops(a, b)
  {
    PastNext(a.head);
    if Offset(a.head) == 30 {
      b := LastClaimed(i, a, m, blk);
    } else {
      b := OtherClaimed(i, a, m, blk);
    }
  }

  lemma PastNext(n: nat)
    requires IsSlot(n)
    ensures Offset(n) <= 30 && Past(n + 1) == if Offset(n) == 30 then n + 2 else n + 1
  {
  }

  lemma PopWins(i: nat, a: Shared, m: Flag, blk: nat, b: Shared, q: Pc)
    requires Runs(i, HeadClaimed(a, i, a.head, m), AfterClaim(a.head, blk), b, q)
    ensures Runs(i, a, OnPop(PopCas(a.head, a.mark, m, Some(blk))), b, q)
  {
    CasEffect(i, a, m, blk);
    Ahead(i, a, OnPop(PopCas(a.head, a.mark, m, Some(blk))), b, q);
  }

  lemma PopRuns(i: nat, a: Shared, blk: nat) returns (b: Shared)
    requires Takeable(a, blk) && a.headBlock == Some(blk) && a.head != a.tail
    ensures Runs(i, a, OnPop(PopLoad), b, Said(Popped(a.head, a.claimed[a.head]))) && Pops(a, b)
  {
    var m := if a.mark.On? then On else Flagged(Lap(a.head) != Lap(a.tail));
    b := PopClaimed(i, a, m, blk);
    var answer := Said(Popped(a.head, a.claimed[a.head]));
    PopWins(i, a, m, blk, b, answer);
    Ahead(i, a, OnPop(PopLoop(a.head, a.mark, a.headBlock)), b, answer);
    Ahead(i, a, OnPop(PopBlock(a.head, a.mark)), b, answer);
    Ahead(i, a, OnPop(PopLoad), b, answer);
  }

  lemma PopRefused(i: nat, a: Shared)
    requires AtRest(a) && a.head == a.tail
    ensures Runs(i, a, OnPop(PopLoad), a, Said(if a.closed.On? then WasClosed else WasEmpty))
  {
    var answer := Said(if a.closed.On? then WasClosed else WasEmpty);
    Arrived(Alone(i), Out(a, answer));
    Ahead(i, a, OnPop(PopLoop(a.head, a.mark, a.headBlock)), a, answer);
    Ahead(i, a, OnPop(PopBlock(a.head, a.mark)), a, answer);
    Ahead(i, a, OnPop(PopLoad), a, answer);
  }

  // ---------------------------------------------------------------- whole calls

  /** The run in which thread `i` starts a call and goes on alone. */
  function Call(i: nat, c: nat, n: nat): seq<(nat, nat)> { [(i, c)] + Own(i, 1, n) }

  lemma CallIsRun(s: State, i: nat, c: nat, b: Shared, q: Pc) returns (n: nat)
    requires i < |s.pcs| && var o := Do(s.sh, i, s.pcs[i], c); Runs(i, o.sh, o.pc, b, q)
    ensures Execute(s, Call(i, c, n)) == State(b, s.pcs[i := q])
  {
    var o := Do(s.sh, i, s.pcs[i], c);
    n :| Iterate(Alone(i), o, n) == Out(b, q);
    AloneIsRun(Move(s, (i, c)), i, n);
    assert Call(i, c, n)[1..] == Own(i, 1, n);
  }

  /** A `push` that runs alone appends its value, or is refused by a closed queue. */
  lemma PushAppends(s: State, moves: seq<(nat, nat)>, i: nat, v: nat) returns (n: nat)
    requires Init(s) && Quiet(Execute(s, moves)) && i < |Execute(s, moves).pcs| && v >= 3
    ensures var t := Execute(s, moves);
            var u := Execute(t, Call(i, v, n));
            if t.sh.closed.On? then u == State(t.sh, t.pcs[i := Said(WasClosed)])
            else
              && u.pcs == t.pcs[i := Said(Pushed(t.sh.tail))] && u.sh.closed.Off?
              && Contents(u.sh) == Contents(t.sh) + [v]
  {
    var t := Execute(s, moves);
    RestsWhenQuiet(s, moves);
    if t.sh.closed.On? {
      PushRefused(i, t.sh, v);
      n := CallIsRun(t, i, v, t.sh, Said(WasClosed));
    } else {
      var b := PushRuns(i, t.sh, v);
      ContentsPushed(t.sh, b, v);
      n := CallIsRun(t, i, v, b, Said(Pushed(t.sh.tail)));
    }
  }

  /** A `pop` that runs alone takes the oldest value, or tells that there is none. */
  lemma PopTakesOldest(s: State, moves: seq<(nat, nat)>, i: nat) returns (n: nat)
    requires Init(s) && Quiet(Execute(s, moves)) && i < |Execute(s, moves).pcs|
    ensures var t := Execute(s, moves);
            var u := Execute(t, Call(i, 1, n));
            if Contents(t.sh) == [] then
              u == State(t.sh, t.pcs[i := Said(if t.sh.closed.On? then WasClosed else WasEmpty)])
            else
              && u.pcs == t.pcs[i := Said(Popped(t.sh.head, Contents(t.sh)[0]))] && u.sh.closed == t.sh.closed
              && Contents(u.sh) == Contents(t.sh)[1..]
  {
    var t := Execute(s, moves);
    RestsWhenQuiet(s, moves);
    ContentsEmpty(t.sh);
    if t.sh.head == t.sh.tail {
      PopRefused(i, t.sh);
      n := CallIsRun(t, i, 1, t.sh, Said(if t.sh.closed.On? then WasClosed else WasEmpty));
    } else {
      HeadReady(t.sh);
      var b := PopRuns(i, t.sh, Lap(t.sh.head));
      ContentsPopped(t.sh, b);
      n := CallIsRun(t, i, 1, b, Said(Popped(t.sh.head, Contents(t.sh)[0])));
    }
  }

  /** A `len` that runs alone answers the number of values. */
  lemma LenCounts(s: State, moves: seq<(nat, nat)>, i: nat) returns (n: nat)
    requires Init(s) && Quiet(Execute(s, moves)) && i < |Execute(s, moves).pcs|
    ensures var t := Execute(s, moves);
            Execute(t, Call(i, 2, n)) == State(t.sh, t.pcs[i := Said(Length(|Contents(t.sh)|))])
  {
    var t := Execute(s, moves);
    RestsWhenQuiet(s, moves);
    var a := t.sh;
    LenExact(a.head, a.tail);
    var answer := Said(Length(|Contents(a)|));
    Arrived(Alone(i), Out(a, answer));
    Ahead(i, a, OnLen(LenCheck(a.tail, a.closed, a.head, |Slots(a.head, a.tail)|)), a, answer);
    Ahead(i, a, OnLen(LenHead(a.tail, a.closed)), a, answer);
    Ahead(i, a, OnLen(LenTail), a, answer);
    n := CallIsRun(t, i, 2, a, answer);
  }
}
