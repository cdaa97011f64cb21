/** Ordered delivery, bounds, initialisation and termination of the byte pipe. */
module PipeProof {
  import opened Tally
  import opened Pipe
  import Laps

  // ---------------------------------------------------------------- cursors stand for byte counts

  /** The cursor word of byte count `n`. */
  function Word(cap: nat, n: nat): (r: nat)
    requires cap > 0
    ensures r < 2 * cap
  {
    n % (2 * cap)
  }

  lemma RealIs(cap: nat, n: nat)
    requires cap > 0
    ensures RealIndex(cap, Word(cap, n)) == n % cap
  {
    Laps.Folded(cap, 2 * cap, n);
  }

  lemma DistanceIs(cap: nat, a: nat, b: nat)
    requires cap > 0 && a <= b <= a + cap
    ensures Distance(cap, Word(cap, a), Word(cap, b)) == b - a
  {
    Laps.Wrapped(2 * cap, a, b - a);
  }

  lemma AdvanceIs(cap: nat, a: nat, n: nat)
    requires cap > 0 && a % cap + n <= cap
    ensures Advance(cap, Word(cap, a), n) == Word(cap, a + n)
  {
    RealIs(cap, a);
    Laps.Wrapped(2 * cap, a, n);
  }

  /** The places of the next `n` bytes are not the place of an earlier byte, if all
      of them fit into one lap. */
  lemma OtherPlace(cap: nat, j: nat, from: nat, n: nat)
    requires cap > 0 && j < from && from + n <= j + cap && from % cap + n <= cap
    ensures !(from % cap <= j % cap < from % cap + n)
  {
    if from % cap <= j % cap < from % cap + n {
      var i := j % cap - from % cap;
      Laps.Wrapped(cap, from, i);
      Laps.SameIndex(cap, j, from + i);
    }
  }

  // ---------------------------------------------------------------- the invariant

  /** The cached cursors lag behind, and the writer is at most one capacity ahead of
      what it knows of the reader. */
  predicate Ordered(s: State) {
    && s.headSeen <= s.headAt <= |s.delivered| <= s.tailSeen <= s.tailAt <= |s.taken| <= s.headSeen + s.cap
  }

  predicate Words(s: State)
    requires s.cap > 0
  {
    && s.head == Word(s.cap, s.headAt) && s.tail == Word(s.cap, s.tailAt)
    && s.r.head == Word(s.cap, |s.delivered|) && s.r.tail == Word(s.cap, s.tailSeen)
    && s.w.head == Word(s.cap, s.headSeen) && s.w.tail == Word(s.cap, |s.taken|)
  }

  /** Every byte taken in and not yet handed out is in its place. */
  ghost predicate Held(s: State)
    requires Shaped(s)
  {
    forall j: nat :: |s.delivered| <= j < |s.taken| ==> s.buffer[j % s.cap] == Some(s.taken[j])
  }

  ghost predicate Initialised(s: State)
    requires Shaped(s)
  {
    && s.w.zeroed <= s.cap && (s.w.zeroed == s.cap || |s.taken| <= s.w.zeroed)
    && forall i :: 0 <= i < s.w.zeroed ==> s.buffer[i].Some?
  }

  /** The piece of the buffer the writer is working on: free, in bounds, initialised. */
  predicate Piece(s: State, n: nat)
    requires s.cap > 0
  {
    |s.taken| + n <= s.headSeen + s.cap && |s.taken| % s.cap + n <= Min(s.cap, s.w.zeroed)
  }

  predicate WriterInv(s: State)
    requires s.cap > 0
  {
    match s.w.pc
    case WRead(n) => Piece(s, n)
    case WStore(n) => Piece(s, n)
    case _ => true
  }

  /** The writer has published what it took in, except right before it does; and the
      pipe is closed only when one end is gone. */
  predicate Settled(s: State) {
    && (s.w.pc != WPublish ==> s.tailAt == |s.taken|)
    && (s.closed.On? ==> s.w.pc == WGone || s.r.pc == RGone)
  }

  ghost predicate Inv(s: State) {
    && Shaped(s) && Ordered(s) && Words(s) && Held(s) && Initialised(s) && WriterInv(s) && Settled(s)
    && s.delivered == s.taken[..|s.delivered|]
  }

  // ---------------------------------------------------------------- the writer

  lemma FillSizeFits(s: State)
    requires Inv(s)
    ensures 0 <= FillSize(s) && |s.taken| + FillSize(s) <= s.headSeen + s.cap
    ensures RealIndex(s.cap, s.w.tail) == |s.taken| % s.cap && |s.taken| % s.cap + FillSize(s) <= s.cap
    ensures FillSize(s) == 0 <==> |s.taken| == s.headSeen + s.cap
  {
    RealIs(s.cap, |s.taken|);
    DistanceIs(s.cap, s.headSeen, |s.taken|);
  }

  /** Zeroing starts where nothing has been written, so no unread byte is touched. */
  lemma ZeroingKeeps(s: State, j: nat, to: nat)
    requires Inv(s) && |s.delivered| <= j < |s.taken| && s.w.zeroed < to <= s.cap
    ensures j % s.cap < s.w.zeroed
  {
    Laps.Unique(s.cap, 0, j);
  }

  lemma LoopStep(s: State, c: Choice)
    requires Inv(s) && s.w.pc == WLoop
    ensures Inv(DoWriter(s, c))
  {
    FillSizeFits(s);
    var t := DoWriter(s, c);
    forall j: nat | |t.delivered| <= j < |t.taken| ensures t.buffer[j % t.cap] == Some(t.taken[j]) {
      if s.w.zeroed < |s.taken| % s.cap + FillSize(s) {
        ZeroingKeeps(s, j, |s.taken| % s.cap + FillSize(s));
      }
    }
  }

  /** Reading from the source writes only to free places. */
  lemma ReadStep(s: State, c: Choice)
    requires Inv(s) && s.w.pc.WRead?
    ensures Inv(DoWriter(s, c))
  {
    var n := s.w.pc.n;
    RealIs(s.cap, |s.taken|);
    var t := DoWriter(s, c);
    forall j: nat | |t.delivered| <= j < |t.taken| ensures t.buffer[j % t.cap] == Some(t.taken[j]) {
      OtherPlace(s.cap, j, |s.taken|, n);
    }
  }

  lemma StoredInPlace(s: State, n: nat, j: nat)
    requires Inv(s) && s.w.pc == WStore(n) && |s.taken| <= j < |s.taken| + n
    ensures var from := |s.taken| % s.cap;
            from + n <= s.cap && j % s.cap == from + (j - |s.taken|) && s.buffer[from + (j - |s.taken|)].Some?
  {
    Laps.Wrapped(s.cap, |s.taken|, j - |s.taken|);
  }

  lemma StoreHeld(s: State, n: nat)
    requires Inv(s) && s.w.pc == WStore(n)
    ensures |s.taken| % s.cap + n <= s.cap
    ensures var u := s.(taken := s.taken + BytesAt(s.buffer, |s.taken| % s.cap, n)); Held(u)
  {
    var bytes := BytesAt(s.buffer, |s.taken| % s.cap, n);
    var u := s.(taken := s.taken + bytes);
    forall j: nat | |u.delivered| <= j < |u.taken| ensures u.buffer[j % u.cap] == Some(u.taken[j]) {
      if j >= |s.taken| {
        StoredInPlace(s, n, j);
        assert u.taken[j] == bytes[j - |s.taken|];
      } else {
        InPlace(s, j, j % s.cap);
      }
    }
  }

  lemma StoreStep(s: State, c: Choice)
    requires Inv(s) && s.w.pc.WStore?
    ensures Inv(DoWriter(s, c))
  {
    var n := s.w.pc.n;
    RealIs(s.cap, |s.taken|);
    if n != 0 && !s.closed.On? {
      StoreGood(s, n);
    }
  }

  /** The bytes stored become part of what was taken in. */
  function Stored(s: State, n: nat): State
    requires |s.buffer| == s.cap && 0 <= RealIndex(s.cap, s.w.tail) && RealIndex(s.cap, s.w.tail) + n <= s.cap
  {
    s.(taken := s.taken + BytesAt(s.buffer, RealIndex(s.cap, s.w.tail), n),
       w := s.w.(tail := Advance(s.cap, s.w.tail, n), pc := WPublish))
  }

  lemma StoreGood(s: State, n: nat)
    requires Inv(s) && s.w.pc == WStore(n)
    ensures RealIndex(s.cap, s.w.tail) == |s.taken| % s.cap && |s.taken| % s.cap + n <= s.cap && Inv(Stored(s, n))
  {
    RealIs(s.cap, |s.taken|);
    AdvanceIs(s.cap, |s.taken|, n);
    StoreHeld(s, n);
    StoreInitialised(s, n);
  }

  lemma StoreInitialised(s: State, n: nat)
    requires Inv(s) && s.w.pc == WStore(n)
    ensures s.w.zeroed == s.cap || |s.taken| + n <= s.w.zeroed
  {
    if s.w.zeroed < s.cap {
      Laps.Unique(s.cap, 0, |s.taken|);
    }
  }

  lemma OtherWriterStep(s: State, c: Choice)
    requires Inv(s) && !s.w.pc.WLoop? && !s.w.pc.WRead? && !s.w.pc.WStore?
    ensures Inv(DoWriter(s, c))
  {
  }

  // ---------------------------------------------------------------- the reader

  lemma DrainSizeFits(s: State)
    requires Inv(s)
    ensures 0 <= DrainSize(s) && |s.delivered| + DrainSize(s) <= s.tailSeen
    ensures RealIndex(s.cap, s.r.head) == |s.delivered| % s.cap && |s.delivered| % s.cap + DrainSize(s) <= s.cap
    ensures DrainSize(s) == 0 <==> |s.delivered| == s.tailSeen
  {
    RealIs(s.cap, |s.delivered|);
    DistanceIs(s.cap, |s.delivered|, s.tailSeen);
  }

  /** What `drain` hands out next is what `fill` took in next. */
  lemma DrainsNext(s: State, n: nat)
    requires Inv(s) && n <= DrainSize(s)
    ensures |s.delivered| % s.cap + n <= s.cap && |s.delivered| + n <= |s.taken|
    ensures BytesAt(s.buffer, |s.delivered| % s.cap, n) == s.taken[|s.delivered|..|s.delivered| + n]
  {
    DrainSizeFits(s);
    var from := |s.delivered| % s.cap;
    var bytes := BytesAt(s.buffer, from, n);
    forall i: nat | i < |bytes| ensures bytes[i] == s.taken[|s.delivered| + i] {
      ByteInPlace(s, i);
    }
  }

  lemma InPlace(s: State, j: nat, place: nat)
    requires Shaped(s) && Held(s) && |s.delivered| <= j < |s.taken| && place == j % s.cap
    ensures place < s.cap && s.buffer[place] == Some(s.taken[j])
  {
  }

  lemma ByteInPlace(s: State, i: nat)
    requires Shaped(s) && Held(s) && |s.delivered| + i < |s.taken| && |s.delivered| % s.cap + i < s.cap
    ensures s.buffer[|s.delivered| % s.cap + i] == Some(s.taken[|s.delivered| + i])
  {
    Laps.Wrapped(s.cap, |s.delivered|, i);
    InPlace(s, |s.delivered| + i, |s.delivered| % s.cap + i);
  }

  lemma DrainStep(s: State, c: Choice)
    requires Inv(s) && s.r.pc == RLoop
    ensures Inv(DoReader(s, c))
  {
    DrainSizeFits(s);
    var n := Min(c.k, DrainSize(s));
    if n > 0 {
      DrainsNext(s, n);
      AdvanceIs(s.cap, |s.delivered|, n);
      var t := DoReader(s, c);
      assert t.delivered == s.taken[..|s.delivered| + n];
    }
  }

  lemma OtherReaderStep(s: State, c: Choice)
    requires Inv(s) && s.r.pc != RLoop
    ensures Inv(DoReader(s, c))
  {
  }

  // ---------------------------------------------------------------- whole runs

  lemma MoveKeeps(s: State, move: (Flag, Choice))
    requires Inv(s)
    ensures Inv(Move(s, move))
  {
    if move.0.Off? {
      if s.w.pc.WLoop? {
        LoopStep(s, move.1);
      } else if s.w.pc.WRead? {
        ReadStep(s, move.1);
      } else if s.w.pc.WStore? {
        StoreStep(s, move.1);
      } else {
        OtherWriterStep(s, move.1);
      }
    } else if s.r.pc == RLoop {
      DrainStep(s, move.1);
    } else {
      OtherReaderStep(s, move.1);
    }
  }

  lemma {:induction false} RunKeeps(s: State, moves: seq<(Flag, Choice)>)
    requires Inv(s)
    ensures Inv(Execute(s, moves))
    decreases |moves|
  {
    if moves != [] {
      MoveKeeps(s, moves[0]);
      RunKeeps(Move(s, moves[0]), moves[1..]);
    }
  }

  lemma Reachable(s: State, moves: seq<(Flag, Choice)>)
    requires Init(s)
    ensures Inv(Execute(s, moves))
  {
    Laps.Unique(2 * s.cap, 0, 0);
    RunKeeps(s, moves);
  }

  // ---------------------------------------------------------------- theorems

  /** What `drain` has handed out is a prefix, in order, of what `fill` has taken in,
      and the two are never more than one capacity apart. */
  lemma OrderedDelivery(s: State, moves: seq<(Flag, Choice)>)
    requires Init(s)
    ensures var t := Execute(s, moves);
            && |t.delivered| <= |t.taken| <= |t.delivered| + t.cap
            && t.delivered == t.taken[..|t.delivered|]
  {
    Reachable(s, moves);
  }

  /** The places `fill` may write to now: the piece offered to the source, and the
      part of the buffer it is about to zero. */
  ghost predicate Touches(s: State, i: nat)
    requires Shaped(s)
  {
    var from := RealIndex(s.cap, s.w.tail);
    match s.w.pc
    case WLoop => s.w.zeroed <= i < from + FillSize(s)
    case WRead(n) => from <= i < from + n
    case _ => false
  }

  /** Writing and zeroing stay in bounds and never touch an unread byte, and the piece
      handed to the source is initialised memory. */
  lemma FillInBounds(s: State, moves: seq<(Flag, Choice)>, i: nat)
    requires Init(s)
    ensures var t := Execute(s, moves);
            Touches(t, i) ==>
              && i < t.cap
              && (t.w.pc.WRead? ==> t.buffer[i].Some?)
              && forall j: nat :: |t.delivered| <= j < |t.taken| ==> j % t.cap != i
  {
    Reachable(s, moves);
    var t := Execute(s, moves);
    if Touches(t, i) {
      FillSizeFits(t);
      forall j: nat | |t.delivered| <= j < |t.taken| ensures j % t.cap != i {
        if t.w.pc.WLoop? {
          ZeroingKeeps(t, j, |t.taken| % t.cap + FillSize(t));
        } else {
          OtherPlace(t.cap, j, |t.taken|, t.w.pc.n);
        }
      }
    }
  }

  /** The piece `drain` offers its destination is in bounds and consists of initialised
      bytes: the next bytes taken in. */
  lemma DrainInBounds(s: State, moves: seq<(Flag, Choice)>)
    requires Init(s)
    ensures var t := Execute(s, moves);
            var from := RealIndex(t.cap, t.r.head);
            && 0 <= from && 0 <= DrainSize(t) && from + DrainSize(t) <= t.cap
            && |t.delivered| + DrainSize(t) <= |t.taken|
            && BytesAt(t.buffer, from, DrainSize(t)) == t.taken[|t.delivered|..|t.delivered| + DrainSize(t)]
            && forall i: nat :: from <= i < from + DrainSize(t) ==> t.buffer[i].Some?
  {
    Reachable(s, moves);
    var t := Execute(s, moves);
    DrainSizeFits(t);
    DrainsNext(t, DrainSize(t));
    var from := RealIndex(t.cap, t.r.head);
    forall i: nat | from <= i < from + DrainSize(t) ensures t.buffer[i].Some? {
      ByteInPlace(t, i - from);
    }
  }

  /** An answer of 0 is the true end of the stream, with every byte taken in delivered, if
      and only if the published tail still is where the reader stands when `closed` is
      loaded. */
  lemma EndIsTrueIff(s: State, moves: seq<(Flag, Choice)>, c: Choice)
    requires Init(s) && Execute(s, moves).r.pc == RClosed && Move(Execute(s, moves), (On, c)).r.pc == REnd
    ensures var t := Execute(s, moves); t.delivered == t.taken <==> t.tail == t.r.head
  {
    Reachable(s, moves);
    var t := Execute(s, moves);
    SameWord(t.cap, |t.delivered|, t.tailAt);
  }

  lemma SameWord(cap: nat, a: nat, b: nat)
    requires cap > 0 && a <= b <= a + cap
    ensures Word(cap, a) == Word(cap, b) <==> a == b
  {
    DistanceIs(cap, a, b);
  }

  /** The bytes the writer can still store before it has to look at the reader's cursor. */
  function FillRoom(s: State): int { s.headSeen + s.cap - |s.taken| }

  function FillRank(p: WritePc): nat {
    match p
    case WLoop => 2
    case WRead(_) => 1
    case WPublish => 3
    case _ => 0
  }

  predicate InFill(p: WritePc) { p.WLoop? || p.WRead? || p.WStore? || p.WPublish? }

  /** The copy loop of `fill` ends: every step of the writer that stays in the loop makes
      (room, program point) smaller, and no step of the reader changes them. */
  lemma FillTerminates(s: State, moves: seq<(Flag, Choice)>, move: (Flag, Choice))
    requires Init(s)
    ensures var t := Execute(s, moves);
            var u := Move(t, move);
            && FillRoom(t) >= 0
            && (move.0.On? ==> FillRoom(u) == FillRoom(t) && u.w.pc == t.w.pc)
            && (move.0.Off? && InFill(t.w.pc) && InFill(u.w.pc) ==>
                  FillRoom(u) < FillRoom(t) || (FillRoom(u) == FillRoom(t) && FillRank(u.w.pc) < FillRank(t.w.pc)))
  {
    Reachable(s, moves);
    var t := Execute(s, moves);
    if t.w.pc.WLoop? {
      FillSizeFits(t);
    } else if t.w.pc.WRead? {
      RealIs(t.cap, |t.taken|);
    }
  }

  function DrainRoom(s: State): int { s.tailSeen - |s.delivered| }

  predicate InDrain(p: ReadPc) { p.RLoop? || p.RPublish? }

  /** The copy loop of `drain` ends likewise. */
  lemma DrainTerminates(s: State, moves: seq<(Flag, Choice)>, move: (Flag, Choice))
    requires Init(s)
    ensures var t := Execute(s, moves);
            var u := Move(t, move);
            && DrainRoom(t) >= 0
            && (move.0.Off? ==> DrainRoom(u) == DrainRoom(t) && u.r.pc == t.r.pc)
            && (move.0.On? && InDrain(t.r.pc) && InDrain(u.r.pc) ==>
                  DrainRoom(u) < DrainRoom(t) || (DrainRoom(u) == DrainRoom(t) && t.r.pc.RPublish? && u.r.pc.RLoop?))
  {
    Reachable(s, moves);
  }
}
