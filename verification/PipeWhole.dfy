/** The byte pipe with both its wakers: the copying machine of `Pipe` and, for each end, the
    registration and waking of `PipeWake` down to the steps of the AtomicWaker, run together.
    An end inside a call on a waker finishes it before it goes on copying. */
module PipeWhole {
  import opened Tally
  import opened Pipe
  import PipeProof
  import PipeWake

  /** `r` is the waker the reader waits on and the writer signals, `w` the other one. An end
      that yields wakes itself and returns Pending; `rYield` and `wYield` tell so. */
  datatype Whole = Whole(pipe: State, r: PipeWake.State, w: PipeWake.State, rYield: Flag, wYield: Flag)

  predicate WellShaped(x: Whole) { Shaped(x.pipe) && PipeWake.Shaped(x.r) && PipeWake.Shaped(x.w) }

  function Waits(s: PipeWake.State, c: nat): (t: PipeWake.State)
    requires PipeWake.Shaped(s)
    ensures PipeWake.Shaped(t)
  {
    PipeWake.Move(s, (On, c))
  }

  function Signals(s: PipeWake.State, c: nat): (t: PipeWake.State)
    requires PipeWake.Shaped(s)
    ensures PipeWake.Shaped(t)
  {
    PipeWake.Move(s, (Off, c))
  }

  /** A new poll of an end that may have been Pending. */
  function Repolled(s: PipeWake.State): (t: PipeWake.State)
    requires PipeWake.Shaped(s)
    ensures PipeWake.Shaped(t)
  {
    if s.wait.WPending? then Waits(s, 0) else s
  }

  predicate InCall(s: PipeWake.State) { s.wait.WTake? || s.wait.WRegister? }

  /** What the reader does on its own waker in a step of `drain` from `p` to `q`: it loads
      the other cursor, registers, loads again, looks at `closed`, or takes its waker back. */
  function ReaderWaits(s: PipeWake.State, p: ReadPc, q: ReadPc): (t: PipeWake.State)
    requires PipeWake.Shaped(s)
    ensures PipeWake.Shaped(t)
  {
    match p
    case RIdle => if q.RGone? then s else if q.REnter? then Waits(Repolled(s), 0) else Repolled(s)
    case RLoad(again) =>
      if again.Off? then Waits(Waits(s, 1), if q.REnter? then 0 else 2)
      else if q.REnter? then Waits(Waits(s, 0), 0) else Waits(s, 0)
    case RClosed => Waits(s, 0)
    case _ => s
  }

  function WriterWaits(s: PipeWake.State, p: WritePc, q: WritePc): (t: PipeWake.State)
    requires PipeWake.Shaped(s)
    ensures PipeWake.Shaped(t)
  {
    match p
    case WIdle => if q.WLoad? then Repolled(s) else if q.WEnter? then Waits(Repolled(s), 0) else s
    case WLoad(again) =>
      if again.Off? then Waits(Waits(s, 1), if q.WEnter? then 0 else 2)
      else if q.WEnter? then Waits(Waits(s, 0), 0) else Waits(s, 0)
    case WClosed => Waits(s, 0)
    case _ => s
  }

  /** What the reader tells the writer: it is gone, or its cursor has moved. */
  function ReaderTells(s: PipeWake.State, a: State, b: State): (t: PipeWake.State)
    requires PipeWake.Shaped(s)
    ensures PipeWake.Shaped(t)
  {
    if a.r.pc.RIdle? && b.r.pc.RGone? then Signals(s, 0)
    else if a.r.pc.RPublish? && a.headAt < b.headAt then Signals(s, b.headAt - a.headAt)
    else s
  }

  function WriterTells(s: PipeWake.State, a: State, b: State): (t: PipeWake.State)
    requires PipeWake.Shaped(s)
    ensures PipeWake.Shaped(t)
  {
    if a.w.pc.WIdle? && b.w.pc.WGone? then Signals(s, 0)
    else if a.w.pc.WPublish? && a.tailAt < b.tailAt then Signals(s, b.tailAt - a.tailAt)
    else s
  }

  function MoveReader(x: Whole, c: Choice): (y: Whole)
    requires WellShaped(x)
    ensures WellShaped(y)
  {
    if InCall(x.r) then x.(r := Waits(x.r, 0))
    else if x.w.sig.SWake? then x.(w := Signals(x.w, 0))
    else
      var pipe := Pipe.Move(x.pipe, (On, c));
      Whole(pipe, ReaderWaits(x.r, x.pipe.r.pc, pipe.r.pc), ReaderTells(x.w, x.pipe, pipe),
            Flagged(x.pipe.r.pc.REnter? && pipe.r.pc.RIdle?), x.wYield)
  }

  function MoveWriter(x: Whole, c: Choice): (y: Whole)
    requires WellShaped(x)
    ensures WellShaped(y)
  {
    if InCall(x.w) then x.(w := Waits(x.w, 0))
    else if x.r.sig.SWake? then x.(r := Signals(x.r, 0))
    else
      var pipe := Pipe.Move(x.pipe, (Off, c));
      Whole(pipe, WriterTells(x.r, x.pipe, pipe), WriterWaits(x.w, x.pipe.w.pc, pipe.w.pc),
            x.rYield, Flagged(x.pipe.w.pc.WEnter? && pipe.w.pc.WIdle?))
  }

  function Move(x: Whole, move: (Flag, Choice)): (y: Whole)
    requires WellShaped(x)
    ensures WellShaped(y)
  {
    if move.0.Off? then MoveWriter(x, move.1) else MoveReader(x, move.1)
  }

  function Execute(x: Whole, moves: seq<(Flag, Choice)>): (y: Whole)
    requires WellShaped(x)
    ensures WellShaped(y)
    decreases |moves|
  {
    if moves == [] then x else Execute(Move(x, moves[0]), moves[1..])
  }

  predicate Init(x: Whole) {
    Pipe.Init(x.pipe) && PipeWake.Init(x.r) && PipeWake.Init(x.w) && x.rYield.Off? && x.wYield.Off?
  }

  // ---------------------------------------------------------------- how the machines are coupled

  predicate ReaderAt(p: State, wait: PipeWake.WaitPc) {
    match p.r.pc
    case RIdle => wait.WIdle? || (wait.WPending? && p.tailSeen == |p.delivered|)
    case RLoad(again) =>
      if again.Off? then wait.WIdle? else (wait.WRegister? || wait.WLook?) && p.tailSeen == |p.delivered|
    case RClosed => wait.WClosed? && p.tailSeen == |p.delivered|
    case REnter => wait.WTake? || wait.WIdle?
    case RGone => wait.WIdle? || wait.WPending?
    case _ => wait.WIdle?
  }

  predicate WriterAt(p: State, wait: PipeWake.WaitPc) {
    match p.w.pc
    case WIdle => wait.WIdle? || (wait.WPending? && |p.taken| == p.headSeen + p.cap)
    case WLoad(again) =>
      if again.Off? then wait.WIdle? else (wait.WRegister? || wait.WLook?) && |p.taken| == p.headSeen + p.cap
    case WClosed => wait.WClosed? && |p.taken| == p.headSeen + p.cap
    case WEnter => wait.WTake? || wait.WIdle?
    case WGone => wait.WIdle? || wait.WPending?
    case _ => wait.WIdle?
  }

  /** The reader's waker sees the writer's published cursor and its going away. */
  predicate ReaderCoupled(p: State, r: PipeWake.State) {
    && r.published == p.tailAt && r.seen == p.tailSeen && (r.closed.On? <==> p.w.pc.WGone?)
    && ReaderAt(p, r.wait)
  }

  predicate WriterCoupled(p: State, w: PipeWake.State) {
    && w.published == p.headAt && w.seen == p.headSeen && (w.closed.On? <==> p.r.pc.RGone?)
    && WriterAt(p, w.wait)
  }

  /** The reader has published what it handed out, except right before it does. */
  predicate HeadSettled(p: State) {
    if p.r.pc.RPublish? then p.headAt < |p.delivered| else p.headAt == |p.delivered|
  }

  predicate TailSettled(p: State) { p.w.pc.WPublish? ==> p.tailAt < |p.taken| }

  ghost predicate Coupled(x: Whole) {
    && WellShaped(x) && PipeProof.Inv(x.pipe) && PipeWake.Inv(x.r) && PipeWake.Inv(x.w)
    && ReaderCoupled(x.pipe, x.r) && WriterCoupled(x.pipe, x.w)
    && HeadSettled(x.pipe) && TailSettled(x.pipe)
  }

  // ---------------------------------------------------------------- the wakers

  lemma WaitsKeeps(s: PipeWake.State, c: nat)
    requires PipeWake.Inv(s)
    ensures PipeWake.Inv(Waits(s, c))
  {
    PipeWake.MoveKeeps(s, (On, c));
  }

  lemma SignalsKeeps(s: PipeWake.State, c: nat)
    requires PipeWake.Inv(s)
    ensures PipeWake.Inv(Signals(s, c))
  {
    PipeWake.MoveKeeps(s, (Off, c));
  }

  lemma RepolledKeeps(s: PipeWake.State)
    requires PipeWake.Inv(s)
    ensures PipeWake.Inv(Repolled(s))
  {
    WaitsKeeps(s, 0);
  }

  lemma ReaderWaitsKeeps(s: PipeWake.State, p: ReadPc, q: ReadPc)
    requires PipeWake.Inv(s)
    ensures PipeWake.Inv(ReaderWaits(s, p, q))
  {
    RepolledKeeps(s);
    WaitsKeeps(Repolled(s), 0);
    WaitsKeeps(s, 0);
    WaitsKeeps(s, 1);
    WaitsKeeps(Waits(s, 0), 0);
    WaitsKeeps(Waits(s, 1), 0);
    WaitsKeeps(Waits(s, 1), 2);
  }

  lemma WriterWaitsKeeps(s: PipeWake.State, p: WritePc, q: WritePc)
    requires PipeWake.Inv(s)
    ensures PipeWake.Inv(WriterWaits(s, p, q))
  {
    RepolledKeeps(s);
    WaitsKeeps(Repolled(s), 0);
    WaitsKeeps(s, 0);
    WaitsKeeps(s, 1);
    WaitsKeeps(Waits(s, 0), 0);
    WaitsKeeps(Waits(s, 1), 0);
    WaitsKeeps(Waits(s, 1), 2);
  }

  /** A step inside a call changes neither what is published nor what was seen. */
  lemma CallGoesOn(s: PipeWake.State)
    requires PipeWake.Shaped(s) && InCall(s)
    ensures var t := Waits(s, 0);
            && t.published == s.published && t.seen == s.seen && t.closed == s.closed && t.sig == s.sig
            && (s.wait.WTake? ==> t.wait.WTake? || t.wait.WIdle?)
            && (s.wait.WRegister? ==> t.wait.WRegister? || t.wait.WLook?)
  {
  }

  lemma WakeGoesOn(s: PipeWake.State)
    requires PipeWake.Shaped(s) && s.sig.SWake?
    ensures var t := Signals(s, 0);
            t.published == s.published && t.seen == s.seen && t.closed == s.closed && t.wait == s.wait
  {
  }

  // ---------------------------------------------------------------- the reader

  /** Loads of the tail: what the reader sees decides as in the waker's machine. */
  lemma ReaderLoads(x: Whole, c: Choice)
    requires Coupled(x) && !InCall(x.r) && (x.pipe.r.pc.RLoad? || x.pipe.r.pc.RClosed?)
    ensures var b := Pipe.Move(x.pipe, (On, c));
            ReaderCoupled(b, ReaderWaits(x.r, x.pipe.r.pc, b.r.pc))
  {
    var p := x.pipe;
    PipeProof.DistanceIs(p.cap, |p.delivered|, p.tailAt);
  }

  lemma ReaderPolls(p: State, r: PipeWake.State, c: Choice)
    requires Shaped(p) && PipeWake.Shaped(r) && ReaderCoupled(p, r) && p.r.pc.RIdle?
    ensures var b := Pipe.Move(p, (On, c)); ReaderCoupled(b, ReaderWaits(r, p.r.pc, b.r.pc))
  {
  }

  lemma ReaderOthers(p: State, r: PipeWake.State, c: Choice)
    requires Shaped(p) && PipeWake.Shaped(r) && ReaderCoupled(p, r) && !InCall(r)
    requires !p.r.pc.RIdle? && !p.r.pc.RLoad? && !p.r.pc.RClosed?
    ensures var b := Pipe.Move(p, (On, c)); ReaderCoupled(b, ReaderWaits(r, p.r.pc, b.r.pc))
  {
  }

  /** What the writer's waker hears of a step of the reader. */
  lemma ReaderIsHeard(x: Whole, c: Choice)
    requires Coupled(x) && x.w.sig.SIdle?
    ensures var b := Pipe.Move(x.pipe, (On, c)); WriterCoupled(b, ReaderTells(x.w, x.pipe, b))
  {
    ReaderLeaves(x.pipe, c);
  }

  /** How a step of the reader changes what the writer depends on. */
  lemma ReaderLeaves(p: State, c: Choice)
    requires Shaped(p)
    ensures var b := Pipe.Move(p, (On, c));
            && b.w == p.w && b.taken == p.taken && b.headSeen == p.headSeen && b.tailAt == p.tailAt && b.cap == p.cap
            && b.headAt == (if p.r.pc.RPublish? then |p.delivered| else p.headAt)
            && (b.r.pc.RGone? <==> p.r.pc.RGone? || (p.r.pc.RIdle? && b.r.pc.RGone?))
  {
  }

  lemma ReaderSettles(p: State, c: Choice)
    requires Shaped(p) && HeadSettled(p)
    ensures HeadSettled(Pipe.Move(p, (On, c)))
  {
  }

  lemma ReaderKeeps(x: Whole, c: Choice)
    requires Coupled(x)
    ensures Coupled(MoveReader(x, c))
  {
    if InCall(x.r) {
      CallGoesOn(x.r);
      WaitsKeeps(x.r, 0);
    } else if x.w.sig.SWake? {
      WakeGoesOn(x.w);
      SignalsKeeps(x.w, 0);
    } else {
      ReaderCopies(x, c);
    }
  }

  lemma ReaderCopies(x: Whole, c: Choice)
    requires Coupled(x) && !InCall(x.r) && x.w.sig.SIdle?
    ensures Coupled(MoveReader(x, c))
  {
    var b := Pipe.Move(x.pipe, (On, c));
    PipeProof.MoveKeeps(x.pipe, (On, c));
    ReaderWaitsKeeps(x.r, x.pipe.r.pc, b.r.pc);
    SignalsKeeps(x.w, 0);
    if x.pipe.headAt < b.headAt {
      SignalsKeeps(x.w, b.headAt - x.pipe.headAt);
    }
    ReaderIsHeard(x, c);
    ReaderSettles(x.pipe, c);
    ReaderLeaves(x.pipe, c);
    if x.pipe.r.pc.RLoad? || x.pipe.r.pc.RClosed? {
      ReaderLoads(x, c);
    } else if x.pipe.r.pc.RIdle? {
      ReaderPolls(x.pipe, x.r, c);
    } else {
      ReaderOthers(x.pipe, x.r, c);
    }
  }

  // ---------------------------------------------------------------- the writer

  lemma WriterLoads(x: Whole, c: Choice)
    requires Coupled(x) && !InCall(x.w) && (x.pipe.w.pc.WLoad? || x.pipe.w.pc.WClosed?)
    ensures var b := Pipe.Move(x.pipe, (Off, c));
            WriterCoupled(b, WriterWaits(x.w, x.pipe.w.pc, b.w.pc))
  {
    var p := x.pipe;
    PipeProof.DistanceIs(p.cap, p.headAt, |p.taken|);
  }

  lemma WriterPolls(p: State, w: PipeWake.State, c: Choice)
    requires Shaped(p) && PipeWake.Shaped(w) && WriterCoupled(p, w) && p.w.pc.WIdle?
    ensures var b := Pipe.Move(p, (Off, c)); WriterCoupled(b, WriterWaits(w, p.w.pc, b.w.pc))
  {
  }

  lemma WriterOthers(p: State, w: PipeWake.State, c: Choice)
    requires Shaped(p) && PipeWake.Shaped(w) && WriterCoupled(p, w) && !InCall(w)
    requires !p.w.pc.WIdle? && !p.w.pc.WLoad? && !p.w.pc.WClosed?
    ensures var b := Pipe.Move(p, (Off, c)); WriterCoupled(b, WriterWaits(w, p.w.pc, b.w.pc))
  {
  }

  lemma WriterLeaves(p: State, c: Choice)
    requires Shaped(p)
    ensures var b := Pipe.Move(p, (Off, c));
            && b.r == p.r && b.delivered == p.delivered && b.tailSeen == p.tailSeen && b.headAt == p.headAt
            && b.tailAt == (if p.w.pc.WPublish? then |p.taken| else p.tailAt)
            && (b.w.pc.WGone? <==> p.w.pc.WGone? || (p.w.pc.WIdle? && b.w.pc.WGone?))
  {
  }

  /** What the reader's waker hears of a step of the writer. */
  lemma WriterIsHeard(x: Whole, c: Choice)
    requires Coupled(x) && x.r.sig.SIdle?
    ensures var b := Pipe.Move(x.pipe, (Off, c)); ReaderCoupled(b, WriterTells(x.r, x.pipe, b))
  {
    WriterLeaves(x.pipe, c);
  }

  lemma WriterSettles(p: State, c: Choice)
    requires Shaped(p) && PipeProof.Settled(p)
    ensures TailSettled(Pipe.Move(p, (Off, c)))
  {
  }

  lemma WriterCopies(x: Whole, c: Choice)
    requires Coupled(x) && !InCall(x.w) && x.r.sig.SIdle?
    ensures Coupled(MoveWriter(x, c))
  {
    var b := Pipe.Move(x.pipe, (Off, c));
    PipeProof.MoveKeeps(x.pipe, (Off, c));
    WriterWaitsKeeps(x.w, x.pipe.w.pc, b.w.pc);
    SignalsKeeps(x.r, 0);
    if x.pipe.tailAt < b.tailAt {
      SignalsKeeps(x.r, b.tailAt - x.pipe.tailAt);
    }
    WriterIsHeard(x, c);
    WriterSettles(x.pipe, c);
    WriterLeaves(x.pipe, c);
    if x.pipe.w.pc.WLoad? || x.pipe.w.pc.WClosed? {
      WriterLoads(x, c);
    } else if x.pipe.w.pc.WIdle? {
      WriterPolls(x.pipe, x.w, c);
    } else {
      WriterOthers(x.pipe, x.w, c);
    }
  }

  lemma WriterKeeps(x: Whole, c: Choice)
    requires Coupled(x)
    ensures Coupled(MoveWriter(x, c))
  {
    if InCall(x.w) {
      CallGoesOn(x.w);
      WaitsKeeps(x.w, 0);
    } else if x.r.sig.SWake? {
      WakeGoesOn(x.r);
      SignalsKeeps(x.r, 0);
    } else {
      WriterCopies(x, c);
    }
  }

  // ---------------------------------------------------------------- whole runs

  lemma {:induction false} RunKeeps(x: Whole, moves: seq<(Flag, Choice)>)
    requires Coupled(x)
    ensures Coupled(Execute(x, moves))
    decreases |moves|
  {
    if moves != [] {
      if moves[0].0.Off? {
        WriterKeeps(x, moves[0].1);
      } else {
        ReaderKeeps(x, moves[0].1);
      }
      RunKeeps(Move(x, moves[0]), moves[1..]);
    }
  }

  lemma Reachable(x: Whole, moves: seq<(Flag, Choice)>)
    requires Init(x)
    ensures Coupled(Execute(x, moves))
  {
    PipeProof.Reachable(x.pipe, []);
    PipeWake.InitInv(x.r);
    PipeWake.InitInv(x.w);
    RunKeeps(x, moves);
  }

  // ---------------------------------------------------------------- theorems

  /** The moves that are not spent inside a call on a waker. */
  function Copying(x: Whole, moves: seq<(Flag, Choice)>): seq<(Flag, Choice)>
    requires WellShaped(x)
    decreases |moves|
  {
    if moves == [] then []
    else
      var calls := if moves[0].0.Off? then InCall(x.w) || x.r.sig.SWake? else InCall(x.r) || x.w.sig.SWake?;
      (if calls then [] else [moves[0]]) + Copying(Move(x, moves[0]), moves[1..])
  }

  /** The wakers do not disturb the copying: what happens to the pipe is a run of the pipe
      alone, so that every theorem about those holds here. */
  lemma {:induction false} CopiesAlone(x: Whole, moves: seq<(Flag, Choice)>)
    requires WellShaped(x)
    ensures Execute(x, moves).pipe == Pipe.Execute(x.pipe, Copying(x, moves))
    decreases |moves|
  {
    if moves != [] {
      CopiesAlone(Move(x, moves[0]), moves[1..]);
      var rest := Copying(Move(x, moves[0]), moves[1..]);
      assert ([moves[0]] + rest)[1..] == rest && [] + rest == rest;
    }
  }

  /** `drain` has returned Pending, by yielding or after a registration, and yet there are
      bytes to be read or the writer is gone. */
  predicate ReaderWaitsInVain(y: Whole) {
    && y.pipe.r.pc.RIdle? && (y.rYield.On? || y.r.wait.WPending?)
    && (|y.pipe.delivered| < y.pipe.tailAt || y.pipe.closed.On?)
  }

  /** `fill` has returned Pending, by yielding or after a registration, and yet there is
      room or the reader is gone. */
  predicate WriterWaitsInVain(y: Whole) {
    && y.pipe.w.pc.WIdle? && (y.wYield.On? || y.w.wait.WPending?)
    && (|y.pipe.taken| < y.pipe.headAt + y.pipe.cap || y.pipe.closed.On?)
  }

  /** A reader whose `drain` returned Pending while bytes are there to be read, or the writer
      is gone, has woken itself or is attended to. */
  lemma ReaderIsWoken(x: Whole, moves: seq<(Flag, Choice)>)
    requires Init(x)
    ensures var y := Execute(x, moves);
            ReaderWaitsInVain(y) ==> y.rYield.On? || PipeWake.Attended(y.r)
  {
    Reachable(x, moves);
    var y := Execute(x, moves);
    if ReaderWaitsInVain(y) && y.rYield.Off? {
      ReaderMisses(y);
    }
  }

  lemma ReaderMisses(y: Whole)
    requires Coupled(y) && ReaderWaitsInVain(y) && y.rYield.Off?
    ensures PipeWake.Attended(y.r)
  {
    PipeWake.MissedIsAttended(y.r);
  }

  /** A writer whose `fill` returned Pending while there is room, or the reader is gone, is
      attended to likewise. */
  lemma WriterIsWoken(x: Whole, moves: seq<(Flag, Choice)>)
    requires Init(x)
    ensures var y := Execute(x, moves);
            WriterWaitsInVain(y) ==> y.wYield.On? || PipeWake.Attended(y.w)
  {
    Reachable(x, moves);
    var y := Execute(x, moves);
    if WriterWaitsInVain(y) && y.wYield.Off? {
      WriterMisses(y);
    }
  }

  lemma WriterMisses(y: Whole)
    requires Coupled(y) && WriterWaitsInVain(y) && y.wYield.Off?
    ensures PipeWake.Attended(y.w)
  {
    PipeWake.MissedIsAttended(y.w);
  }

  /** With both ends outside their calls, a Pending end that could go on has been woken. */
  lemma QuietMeansWoken(x: Whole, moves: seq<(Flag, Choice)>)
    requires Init(x) && Execute(x, moves).r.sig.SIdle? && Execute(x, moves).w.sig.SIdle?
    ensures var y := Execute(x, moves);
            && (ReaderWaitsInVain(y) ==> y.rYield.On? || y.r.woken.On?)
            && (WriterWaitsInVain(y) ==> y.wYield.On? || y.w.woken.On?)
  {
    ReaderIsWoken(x, moves);
    WriterIsWoken(x, moves);
  }
}
