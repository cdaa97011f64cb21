/** Whole calls on the byte pipe: `fill` takes in exactly the bytes its source yields, as many
    as there is room for, and `drain` hands out everything it can see. */
module PipeCalls {
  import opened Tally
  import opened Solo
  import opened Pipe
  import opened PipeProof

  // ---------------------------------------------------------------- what fill takes in

  lemma ReaderLeavesWriter(s: State, c: Choice)
    requires Shaped(s)
    ensures var t := DoReader(s, c); t.w == s.w && t.buffer == s.buffer && t.taken == s.taken
  {
  }

  lemma {:induction false} ReaderRunLeavesWriter(s: State, moves: seq<(Flag, Choice)>)
    requires Shaped(s) && forall k :: 0 <= k < |moves| ==> moves[k].0.On?
    ensures var t := Execute(s, moves); t.w == s.w && t.buffer == s.buffer && t.taken == s.taken
    decreases |moves|
  {
    if moves != [] {
      ReaderLeavesWriter(s, moves[0].1);
      ReaderRunLeavesWriter(Move(s, moves[0]), moves[1..]);
    }
  }

  lemma YieldedAt(b: Buffer, from: nat, bytes: seq<int>, n: nat)
    requires from + |bytes| <= |b| && n <= |bytes|
    ensures BytesAt(Written(b, from, bytes), from, n) == bytes[..n]
  {
  }

  /** The bytes about to be stored, right behind those taken in. */
  predicate Waiting(s: State, bytes: seq<int>)
    requires Shaped(s)
  {
    var from := RealIndex(s.cap, s.w.tail);
    && s.w.pc == WStore(|bytes|) && from + |bytes| <= s.cap
    && BytesAt(s.buffer, from, |bytes|) == bytes
  }

  lemma ReadsYield(s: State, c: Choice, n: nat)
    requires Inv(s) && s.w.pc == WRead(n)
    ensures var m := Min(c.k, Min(n, |c.bytes|));
            var t := DoWriter(s, c);
            m <= |c.bytes| && Waiting(t, c.bytes[..m]) && t.taken == s.taken
  {
    RealIs(s.cap, |s.taken|);
    var bytes := c.bytes[..Min(n, |c.bytes|)];
    var m := Min(c.k, |bytes|);
    YieldedAt(s.buffer, RealIndex(s.cap, s.w.tail), bytes, m);
    assert bytes[..m] == c.bytes[..m];
  }

  lemma StoresWaiting(s: State, bytes: seq<int>, d: Choice)
    requires Shaped(s) && Waiting(s, bytes)
    ensures DoWriter(s, d).taken == s.taken + (if s.closed.On? then [] else bytes)
  {
  }

  lemma TakesYield(s: State, c: Choice, between: seq<(Flag, Choice)>, d: Choice, n: nat)
    requires Inv(s) && s.w.pc == WRead(n) && forall k :: 0 <= k < |between| ==> between[k].0.On?
    ensures var u := Execute(Move(s, (Off, c)), between);
            var m := Min(c.k, Min(n, |c.bytes|));
            m <= |c.bytes| && Move(u, (Off, d)).taken == s.taken + (if u.closed.On? then [] else c.bytes[..m])
  {
    ReadsYield(s, c, n);
    var u := Move(s, (Off, c));
    ReaderRunLeavesWriter(u, between);
    StoresWaiting(Execute(u, between), c.bytes[..Min(c.k, Min(n, |c.bytes|))], d);
  }

  /** Whatever the reader does meanwhile, what `fill` takes in is a prefix of what its source
      has just yielded: the bytes the source reports, unless the pipe is closed. */
  lemma FillTakesYield(
      s: State, before: seq<(Flag, Choice)>, c: Choice, between: seq<(Flag, Choice)>, d: Choice, n: nat)
    requires Init(s) && Execute(s, before).w.pc == WRead(n)
    requires forall k :: 0 <= k < |between| ==> between[k].0.On?
    ensures var t := Execute(s, before);
            var u := Execute(Move(t, (Off, c)), between);
            var m := Min(c.k, Min(n, |c.bytes|));
            m <= |c.bytes| && Move(u, (Off, d)).taken == t.taken + (if u.closed.On? then [] else c.bytes[..m])
  {
    Reachable(s, before);
    TakesYield(Execute(s, before), c, between, d, n);
  }

  // ---------------------------------------------------------------- fill alone

  /** The writer with what its source still has. */
  datatype Feeding = Feeding(s: State, src: seq<int>)

  /** The source yields as much as it is asked for, if it has it. */
  function Feed(): Feeding -> Feeding {
    (x: Feeding) =>
      if !Shaped(x.s) then x
      else if x.s.w.pc.WRead? then
        Feeding(DoWriter(x.s, Choice(|x.src|, x.src)), x.src[Min(x.s.w.pc.n, |x.src|)..])
      else Feeding(DoWriter(x.s, Choice(1, [])), x.src)
  }

  lemma {:induction false} FeedingIsRun(x: Feeding, n: nat) returns (moves: seq<(Flag, Choice)>)
    requires Shaped(x.s)
    ensures Execute(x.s, moves) == Iterate(Feed(), x, n).s && |moves| == n
    ensures forall k :: 0 <= k < n ==> moves[k].0.Off?
    decreases n
  {
    if n == 0 {
      moves := [];
    } else {
      var c := if x.s.w.pc.WRead? then Choice(|x.src|, x.src) else Choice(1, []);
      var rest := FeedingIsRun(Feed()(x), n - 1);
      moves := [(Off, c)] + rest;
      assert moves[1..] == rest && Move(x.s, moves[0]) == Feed()(x).s;
    }
  }

  ghost predicate Feeds(x: Feeding, y: Feeding) { Leads(Feed(), x, y) }

  lemma Fed(x: Feeding, y: Feeding)
    requires Feeds(Feed()(x), y)
    ensures Feeds(x, y)
  {
    Then(Feed(), x, y);
  }

  /** What the writer does not change. */
  predicate SameReader(s: State, t: State) {
    && t.cap == s.cap && t.r == s.r && t.delivered == s.delivered && t.headAt == s.headAt && t.closed == s.closed
    && t.headSeen == s.headSeen
  }

  /** The loop from the reading of the source on. */
  lemma Yields(s: State, src: seq<int>, n: nat)
    requires Inv(s) && s.w.pc == WRead(n) && s.closed.Off?
    ensures var r := Min(n, |src|);
            var t := DoWriter(DoWriter(s, Choice(|src|, src)), Choice(1, []));
            && Inv(t) && SameReader(s, t) && DoWriter(s, Choice(|src|, src)).w.pc == WStore(r)
            && t.taken == s.taken + src[..r] && t.w.pc == if r == 0 then WIdle else WPublish
  {
    var r := Min(n, |src|);
    RealIs(s.cap, |s.taken|);
    var u := DoWriter(s, Choice(|src|, src));
    ReadStep(s, Choice(|src|, src));
    YieldedAt(s.buffer, RealIndex(s.cap, s.w.tail), src[..r], r);
    StoreStep(u, Choice(1, []));
  }

  lemma Publishes(s: State)
    requires Inv(s) && s.w.pc == WPublish
    ensures var t := DoWriter(s, Choice(1, []));
            Inv(t) && SameReader(s, t) && t.taken == s.taken && t.w.pc == WLoop
  {
    OtherWriterStep(s, Choice(1, []));
  }

  lemma Sizes(s: State)
    requires Inv(s) && s.w.pc == WLoop
    ensures FillSize(s) >= 0 && (FillSize(s) == 0 <==> FillRoom(s) == 0) && FillSize(s) <= FillRoom(s)
    ensures var t := DoWriter(s, Choice(1, []));
            Inv(t) && SameReader(s, t) && t.taken == s.taken && t.w.pc == WRead(FillSize(s))
  {
    FillSizeFits(s);
    LoopStep(s, Choice(1, []));
  }

  /** One round of the loop that stores something. */
  lemma RoundFills(x: Feeding) returns (y: Feeding, r: nat)
    requires Inv(x.s) && x.s.w.pc == WLoop && x.s.closed.Off? && FillRoom(x.s) > 0 && x.src != []
    ensures Feed()(Feed()(Feed()(Feed()(x)))) == y
    ensures Inv(y.s) && SameReader(x.s, y.s) && y.s.w.pc == WLoop
    ensures 0 < r <= |x.src| && r <= FillRoom(x.s)
    ensures y.s.taken == x.s.taken + x.src[..r] && y.src == x.src[r..]
  {
    Sizes(x.s);
    var n: nat := FillSize(x.s);
    r := Min(n, |x.src|);
    var read := Feed()(x);
    Yields(read.s, x.src, n);
    var done := Feed()(Feed()(read));
    Publishes(done.s);
    y := Feed()(done);
  }

  lemma FourFed(x: Feeding, z: Feeding)
    requires Feeds(Feed()(Feed()(Feed()(Feed()(x)))), z)
    ensures Feeds(x, z)
  {
    Fed(Feed()(Feed()(Feed()(x))), z);
    Fed(Feed()(Feed()(x)), z);
    Fed(Feed()(x), z);
    Fed(x, z);
  }

  /** The last round finds no room, or the source at its end. */
  lemma RoundEnds(x: Feeding) returns (y: Feeding)
    requires Inv(x.s) && x.s.w.pc == WLoop && x.s.closed.Off? && (FillRoom(x.s) == 0 || x.src == [])
    ensures Feeds(x, y) && SameReader(x.s, y.s) && y.s.w.pc == WIdle && y.s.taken == x.s.taken && y.src == x.src
  {
    Sizes(x.s);
    var n: nat := FillSize(x.s);
    var read := Feed()(x);
    Yields(read.s, x.src, n);
    var stored := Feed()(read);
    y := Feed()(stored);
    assert x.src[..0] == [] && x.s.taken + [] == x.s.taken && x.src[0..] == x.src;
    Arrived(Feed(), y);
    Fed(stored, y);
    Fed(read, y);
    Fed(x, y);
  }

  /** How the loop ends: the source's bytes are taken in, as far as there is room. */
  predicate Filled(x: Feeding, y: Feeding)
    requires FillRoom(x.s) >= 0
  {
    var m := Min(|x.src|, FillRoom(x.s));
    && SameReader(x.s, y.s) && y.s.w.pc == WIdle
    && y.s.taken == x.s.taken + x.src[..m] && y.src == x.src[m..]
  }

  lemma FilledFurther(x: Feeding, next: Feeding, r: nat, y: Feeding)
    requires r <= |x.src| && r <= FillRoom(x.s) && SameReader(x.s, next.s)
    requires next.s.taken == x.s.taken + x.src[..r] && next.src == x.src[r..]
    requires FillRoom(next.s) >= 0 && Filled(next, y)
    ensures Filled(x, y)
  {
    RestOf(x.s.taken, x.src, r, Min(|next.src|, FillRoom(next.s)));
  }

  lemma {:induction false} LoopFills(x: Feeding) returns (y: Feeding)
    requires Inv(x.s) && x.s.w.pc == WLoop && x.s.closed.Off?
    ensures Feeds(x, y) && FillRoom(x.s) >= 0 && Filled(x, y)
    decreases |x.src|
  {
    if FillRoom(x.s) == 0 || x.src == [] {
      y := RoundEnds(x);
      assert x.src[..0] == [] && x.s.taken + [] == x.s.taken && x.src[0..] == x.src;
    } else {
      var next, r := RoundFills(x);
      y := LoopFills(next);
      FilledFurther(x, next, r, y);
      FourFed(x, y);
    }
  }

  lemma RestOf(taken: seq<int>, src: seq<int>, r: nat, m: nat)
    requires r + m <= |src|
    ensures taken + src[..r] + src[r..][..m] == taken + src[..r + m] && src[r..][m..] == src[r + m..]
  {
    assert src[..r] + src[r..][..m] == src[..r + m];
  }

  /** Where the reader is known to be once `fill` has looked, if it has to. */
  function KnownHead(s: State): nat { if |s.taken| == s.headSeen + s.cap then s.headAt else s.headSeen }

  /** What `fill` has done when it starts to copy, or has given up waiting for room. */
  predicate Entered(s: State, t: State)
    requires Shaped(s)
  {
    && SameReader(s.(headSeen := KnownHead(s)), t) && t.taken == s.taken
    && t.w.pc == if |s.taken| == KnownHead(s) + s.cap then WIdle else WLoop
  }

  lemma WriterKeeps(s: State)
    requires Inv(s) && !s.w.pc.WLoop? && !s.w.pc.WRead? && !s.w.pc.WStore?
    ensures Inv(DoWriter(s, Choice(1, [])))
  {
    OtherWriterStep(s, Choice(1, []));
  }

  /** The second look at the reader's cursor finds it where it was. */
  lemma LooksAgain(s: State, src: seq<int>) returns (t: State)
    requires Inv(s) && s.w.pc == WLoad(On) && s.closed.Off? && s.headSeen == s.headAt && |s.taken| == s.headAt + s.cap
    ensures Feeds(Feeding(s, src), Feeding(t, src)) && Inv(t) && Entered(s, t) && t.w.pc == WIdle
  {
    var c := Choice(1, []);
    DistanceIs(s.cap, s.headAt, |s.taken|);
    WriterKeeps(s);
    var s1 := DoWriter(s, c);
    WriterKeeps(s1);
    t := DoWriter(s1, c);
    Arrived(Feed(), Feeding(t, src));
    Fed(Feeding(s1, src), Feeding(t, src));
    Fed(Feeding(s, src), Feeding(t, src));
  }

  lemma Enter(s: State, src: seq<int>) returns (t: State)
    requires Inv(s) && s.w.pc == WEnter
    ensures Feeds(Feeding(s, src), Feeding(t, src)) && Inv(t) && SameReader(s, t) && t.taken == s.taken
    ensures t.w.pc == WLoop
  {
    WriterKeeps(s);
    t := DoWriter(s, Choice(1, []));
    Arrived(Feed(), Feeding(t, src));
    Fed(Feeding(s, src), Feeding(t, src));
  }

  lemma Looks(s: State, src: seq<int>) returns (t: State)
    requires Inv(s) && s.w.pc == WLoad(Off) && s.closed.Off? && |s.taken| == s.headSeen + s.cap
    ensures Feeds(Feeding(s, src), Feeding(t, src)) && Inv(t) && Entered(s, t)
  {
    DistanceIs(s.cap, s.headAt, |s.taken|);
    WriterKeeps(s);
    var s1 := DoWriter(s, Choice(1, []));
    if s1.w.pc == WEnter {
      t := Enter(s1, src);
    } else {
      t := LooksAgain(s1, src);
    }
    Fed(Feeding(s, src), Feeding(t, src));
  }

  /** `fill` up to its loop: with a full pipe it looks at the reader's cursor twice and, if
      the pipe still is full, waits. */
  lemma Enters(s: State, src: seq<int>) returns (t: State)
    requires Inv(s) && s.w.pc == WIdle && s.closed.Off?
    ensures Feeds(Feeding(s, src), Feeding(t, src)) && Inv(t) && Entered(s, t)
  {
    DistanceIs(s.cap, s.headSeen, |s.taken|);
    WriterKeeps(s);
    var s1 := DoWriter(s, Choice(1, []));
    if s1.w.pc == WEnter {
      t := Enter(s1, src);
    } else {
      t := Looks(s1, src);
    }
    Fed(Feeding(s, src), Feeding(t, src));
  }

  /** What a whole `fill` leaves. */
  predicate FilledUp(s: State, src: seq<int>, y: Feeding) {
    var room := KnownHead(s) + s.cap - |s.taken|;
    && room >= 0 && y.s.w.pc == WIdle && y.s.delivered == s.delivered
    && y.s.taken == s.taken + src[..Min(|src|, room)] && y.src == src[Min(|src|, room)..]
  }

  lemma NothingFilled(s: State, src: seq<int>, t: State)
    requires Inv(s) && s.w.pc == WIdle && Entered(s, t) && t.w.pc == WIdle
    ensures FilledUp(s, src, Feeding(t, src))
  {
    assert src[..0] == [] && s.taken + [] == s.taken && src[0..] == src;
  }

  lemma FillRuns(s: State, src: seq<int>) returns (y: Feeding)
    requires Inv(s) && s.w.pc == WIdle && s.closed.Off?
    ensures Feeds(Feeding(s, src), y) && FilledUp(s, src, y)
  {
    var t := Enters(s, src);
    if t.w.pc == WLoop {
      y := LoopFills(Feeding(t, src));
      Join(Feed(), Feeding(s, src), Feeding(t, src), y);
    } else {
      y := Feeding(t, src);
      NothingFilled(s, src, t);
    }
  }

  /** A `fill` that runs alone on an open pipe takes in the bytes of its source in order, all
      of them or as many as there is room for, as far as it knows the reader; only if it
      knows of no room does it look at the reader's cursor. */
  lemma FillTakesAll(s: State, moves: seq<(Flag, Choice)>, src: seq<int>) returns (n: nat)
    requires Init(s) && Execute(s, moves).w.pc == WIdle && Execute(s, moves).closed.Off?
    ensures var t := Execute(s, moves); FilledUp(t, src, Iterate(Feed(), Feeding(t, src), n))
  {
    Reachable(s, moves);
    var t := Execute(s, moves);
    var y := FillRuns(t, src);
    n :| Iterate(Feed(), Feeding(t, src), n) == y;
  }

  // ---------------------------------------------------------------- drain alone

  /** A destination that takes all it is offered. */
  const GREEDY := Choice(CHUNK, [])

  function Drain(): State -> State { (s: State) => if Shaped(s) then DoReader(s, GREEDY) else s }

  lemma {:induction false} DrainingIsRun(s: State, n: nat) returns (moves: seq<(Flag, Choice)>)
    requires Shaped(s)
    ensures Execute(s, moves) == Iterate(Drain(), s, n) && |moves| == n
    ensures forall k :: 0 <= k < n ==> moves[k].0.On?
    decreases n
  {
    if n == 0 {
      moves := [];
    } else {
      var rest := DrainingIsRun(Drain()(s), n - 1);
      moves := [(On, GREEDY)] + rest;
      assert moves[1..] == rest && Move(s, moves[0]) == Drain()(s);
    }
  }

  ghost predicate Drains(s: State, t: State) { Leads(Drain(), s, t) }

  lemma Drained(s: State, t: State)
    requires Drains(Drain()(s), t)
    ensures Drains(s, t)
  {
    Then(Drain(), s, t);
  }

  predicate SameWriter(s: State, t: State) {
    t.cap == s.cap && t.w == s.w && t.taken == s.taken && t.tailAt == s.tailAt && t.closed == s.closed
  }

  lemma ReaderKeeps(s: State)
    requires Inv(s)
    ensures Inv(DoReader(s, GREEDY))
  {
    MoveKeeps(s, (On, GREEDY));
  }

  lemma HandsOut(s: State)
    requires Inv(s) && s.r.pc == RLoop
    ensures var t := DoReader(s, GREEDY);
            && Inv(t) && SameWriter(s, t) && t.tailSeen == s.tailSeen
            && (if |s.delivered| == s.tailSeen then t.r.pc == RIdle && t.delivered == s.delivered
                else t.r.pc == RPublish && |t.delivered| > |s.delivered|)
  {
    DrainSizeFits(s);
    ReaderKeeps(s);
  }

  lemma {:induction false} LoopDrains(s: State) returns (t: State)
    requires Inv(s) && s.r.pc == RLoop
    ensures Drains(s, t) && Inv(t) && SameWriter(s, t) && t.r.pc == RIdle && |t.delivered| == s.tailSeen
    decreases s.tailSeen - |s.delivered|
  {
    HandsOut(s);
    var s1 := Drain()(s);
    if s1.r.pc == RIdle {
      t := s1;
      Arrived(Drain(), t);
    } else {
      ReaderKeeps(s1);
      t := LoopDrains(Drain()(s1));
      Drained(s1, t);
    }
    Drained(s, t);
  }

  /** How far the reader sees once `drain` has looked, if it has to. */
  function KnownTail(s: State): nat { if |s.delivered| == s.tailSeen then s.tailAt else s.tailSeen }

  lemma EntersDrain(s: State) returns (t: State)
    requires Inv(s) && s.r.pc == REnter
    ensures Drains(s, t) && Inv(t) && SameWriter(s, t) && t.r.pc == RIdle && |t.delivered| == s.tailSeen
  {
    ReaderKeeps(s);
    t := LoopDrains(Drain()(s));
    Drained(s, t);
  }

  lemma LooksForBytes(s: State) returns (t: State)
    requires Inv(s) && s.r.pc == RLoad(Off) && |s.delivered| == s.tailSeen
    ensures Drains(s, t) && Inv(t) && SameWriter(s, t) && |t.delivered| == s.tailAt
    ensures t.r.pc == if |s.delivered| == s.tailAt && s.closed.On? then REnd else RIdle
  {
    DistanceIs(s.cap, |s.delivered|, s.tailAt);
    ReaderKeeps(s);
    var s1 := Drain()(s);
    if s1.r.pc == REnter {
      t := EntersDrain(s1);
    } else {
      ReaderKeeps(s1);
      var s2 := Drain()(s1);
      ReaderKeeps(s2);
      t := Drain()(s2);
      Arrived(Drain(), t);
      Drained(s2, t);
      Drained(s1, t);
    }
    Drained(s, t);
  }

  /** A `drain` that runs alone hands out every byte it can see, in order; only if it sees
      none does it look at the writer's cursor, and only then, with nothing there and the
      pipe closed, does it answer the end of the stream. */
  lemma DrainHandsOutAll(s: State, moves: seq<(Flag, Choice)>) returns (n: nat)
    requires Init(s) && Execute(s, moves).r.pc == RIdle
    ensures var t := Execute(s, moves);
            var u := Iterate(Drain(), t, n);
            && KnownTail(t) <= |t.taken| && u.delivered == t.taken[..KnownTail(t)] && u.taken == t.taken
            && u.r.pc == if |t.delivered| == KnownTail(t) && t.closed.On? then REnd else RIdle
  {
    Reachable(s, moves);
    var t := Execute(s, moves);
    DistanceIs(t.cap, |t.delivered|, t.tailSeen);
    ReaderKeeps(t);
    var first := Drain()(t);
    var u;
    if first.r.pc == REnter {
      u := EntersDrain(first);
    } else {
      u := LooksForBytes(first);
    }
    Drained(t, u);
    n :| Iterate(Drain(), t, n) == u;
  }

  // ---------------------------------------------------------------- the numbers answered

  /** The pipe with the local `count` of each end, and the byte at which its call began. */
  datatype Counted = Counted(s: State, fill: nat, fillFrom: nat, drain: nat, drainFrom: nat)

  /** `fill` counts what its source reports, `drain` what its destination took. */
  function CountMove(x: Counted, move: (Flag, Choice)): (y: Counted)
    requires Shaped(x.s)
    ensures y.s == Move(x.s, move)
  {
    var t := Move(x.s, move);
    if move.0.Off? then
      if x.s.w.pc.WEnter? then x.(s := t, fill := 0, fillFrom := |x.s.taken|)
      else if x.s.w.pc.WRead? && t.w.pc.WStore? then x.(s := t, fill := x.fill + t.w.pc.n)
      else x.(s := t)
    else if x.s.r.pc.REnter? then x.(s := t, drain := 0, drainFrom := |x.s.delivered|)
    else if x.s.r.pc.RLoop? && t.r.pc.RPublish? && |t.delivered| >= |x.s.delivered| then
      x.(s := t, drain := x.drain + (|t.delivered| - |x.s.delivered|))
    else x.(s := t)
  }

  function CountRun(x: Counted, moves: seq<(Flag, Choice)>): (y: Counted)
    requires Shaped(x.s)
    ensures y.s == Execute(x.s, moves)
    decreases |moves|
  {
    if moves == [] then x else CountRun(CountMove(x, moves[0]), moves[1..])
  }

  predicate FillCounted(x: Counted) {
    match x.s.w.pc
    case WLoop => x.fillFrom + x.fill == |x.s.taken|
    case WRead(_) => x.fillFrom + x.fill == |x.s.taken|
    case WStore(n) => x.fillFrom + x.fill == |x.s.taken| + n
    case WPublish => x.fillFrom + x.fill == |x.s.taken|
    case _ => true
  }

  predicate DrainCounted(x: Counted) {
    x.s.r.pc.RLoop? || x.s.r.pc.RPublish? ==> x.drainFrom + x.drain == |x.s.delivered|
  }

  ghost predicate CountInv(x: Counted) { Inv(x.s) && FillCounted(x) && DrainCounted(x) }

  lemma WriterCounts(x: Counted, c: Choice)
    requires CountInv(x)
    ensures FillCounted(CountMove(x, (Off, c))) && DrainCounted(CountMove(x, (Off, c)))
  {
    if x.s.w.pc.WLoop? {
      FillSizeFits(x.s);
    } else if x.s.w.pc.WRead? || x.s.w.pc.WStore? {
      RealIs(x.s.cap, |x.s.taken|);
    }
  }

  lemma ReaderCounts(x: Counted, c: Choice)
    requires CountInv(x)
    ensures FillCounted(CountMove(x, (On, c))) && DrainCounted(CountMove(x, (On, c)))
  {
    ReaderLeavesWriter(x.s, c);
    if x.s.r.pc.RLoop? {
      DrainSizeFits(x.s);
    }
  }

  lemma {:induction false} CountRunKeeps(x: Counted, moves: seq<(Flag, Choice)>)
    requires CountInv(x)
    ensures CountInv(CountRun(x, moves))
    decreases |moves|
  {
    if moves != [] {
      MoveKeeps(x.s, moves[0]);
      if moves[0].0.Off? {
        WriterCounts(x, moves[0].1);
      } else {
        ReaderCounts(x, moves[0].1);
      }
      CountRunKeeps(CountMove(x, moves[0]), moves[1..]);
    }
  }

  /** The number `fill` answers is that of the bytes it took in, except that a `fill` that
      finds the pipe closed after reading also counts the last piece, which is lost. */
  lemma FillAnswers(s: State, moves: seq<(Flag, Choice)>, c: Choice)
    requires Init(s)
    requires var x := CountRun(Counted(s, 0, 0, 0, 0), moves); Shaped(x.s) && x.s.w.pc.WStore?
    ensures var x := CountRun(Counted(s, 0, 0, 0, 0), moves);
            var n := x.s.w.pc.n;
            var t := Move(x.s, (Off, c));
            && (t.w.pc == WIdle <==> n == 0 || x.s.closed.On?)
            && (t.w.pc == WIdle ==> t.taken == x.s.taken && x.fill == |t.taken| - x.fillFrom + n)
  {
    Reachable(s, []);
    CountRunKeeps(Counted(s, 0, 0, 0, 0), moves);
    var x := CountRun(Counted(s, 0, 0, 0, 0), moves);
    RealIs(x.s.cap, |x.s.taken|);
  }

  /** The number `drain` answers is that of the bytes it handed out. */
  lemma DrainAnswers(s: State, moves: seq<(Flag, Choice)>)
    requires Init(s)
    ensures var x := CountRun(Counted(s, 0, 0, 0, 0), moves);
            x.s.r.pc == RLoop ==> x.drain == |x.s.delivered| - x.drainFrom
  {
    Reachable(s, []);
    CountRunKeeps(Counted(s, 0, 0, 0, 0), moves);
  }
}
