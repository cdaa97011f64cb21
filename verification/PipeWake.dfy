/** Waking one end of the byte pipe, runtime/blocking/blocking.rs, on top of the AtomicWaker:
    the waiting end registers and then looks again; the other end publishes (a cursor or
    `closed`) and then wakes. It serves the reader waiting for bytes and the writer
    waiting for room alike. */
module PipeWake {
  import opened Tally
  import AtomicWaker

  /** The end that publishes. `started` tells whether its `wake` has begun. */
  datatype SignalPc = SIdle | SWake(started: Flag)

  /** The end that waits: a plain `take`, a registration, the two loads after it, and
      Pending. */
  datatype WaitPc = WIdle | WTake(started: Flag) | WRegister(started: Flag) | WLook | WClosed | WPending

  /** Thread 0 of the waker's machine is the signalling end, thread 1 the waiting end.
      `published` is the cursor the signalling end has stored, as a count of bytes, and `seen`
      the value of it the waiting end has loaded.
      Histories: `mine` is the number of the waker of the latest registration, if it is
      stored, and `woken` whether that waker has been woken. */
  datatype State = State(
    aw: AtomicWaker.State, published: nat, closed: Flag, sig: SignalPc, wait: WaitPc,
    seen: nat, mine: nat, woken: Flag)

  predicate Shaped(s: State) { |s.aw.pcs| == 2 }

  /** One step of the signalling end; it wakes whatever its `take` returns. */
  function DoSignal(s: State, c: nat): State
    requires Shaped(s)
  {
    match s.sig
    case SIdle =>
      if c == 0 then s.(closed := On, sig := SWake(Off))
      else s.(published := s.published + c, sig := SWake(Off))
    case SWake(_) =>
      var aw := AtomicWaker.Move(s.aw, (0, 1));
      var wakes := s.aw.pcs[0] == AtomicWaker.TakeReturn(Some(s.mine));
      s.(aw := aw, sig := if aw.pcs[0] == AtomicWaker.Idle then SIdle else SWake(On),
         woken := if wakes then On else s.woken)
  }

  /** One step of the waiting end; a registration may wake its own waker. */
  function DoWait(s: State, c: nat): State
    requires Shaped(s)
  {
    match s.wait
    case WIdle =>
      if c == 0 then s.(wait := WTake(Off))
      else if c == 1 then s.(seen := s.published)
      else s.(wait := WRegister(Off), mine := s.aw.sh.stores, woken := Off)
    case WTake(_) =>
      var aw := AtomicWaker.Move(s.aw, (1, 1));
      s.(aw := aw, wait := if aw.pcs[1] == AtomicWaker.Idle then WIdle else WTake(On))
    case WRegister(_) =>
      var aw := AtomicWaker.Move(s.aw, (1, 0));
      var wakes := s.aw.pcs[1] == AtomicWaker.WakeByRef || s.aw.pcs[1] == AtomicWaker.WakeOwn(s.mine);
      s.(aw := aw, wait := if aw.pcs[1] == AtomicWaker.Idle then WLook else WRegister(On),
         woken := if wakes then On else s.woken)
    case WLook => if s.published != s.seen then s.(seen := s.published, wait := WIdle) else s.(wait := WClosed)
    case WClosed => s.(wait := if s.closed.On? then WIdle else WPending)
    case WPending => s.(wait := WIdle)
  }

  /** `Off` moves the signalling end, `On` the waiting end. */
  function Move(s: State, move: (Flag, nat)): (t: State)
    requires Shaped(s)
    ensures Shaped(t)
  {
    if move.0.Off? then DoSignal(s, move.1) else DoWait(s, move.1)
  }

  predicate Init(s: State) {
    Shaped(s) && AtomicWaker.Init(s.aw) && s == State(s.aw, 0, Off, SIdle, WIdle, 0, 0, Off)
  }

  // ---------------------------------------------------------------- the invariant

  /** Where the two ends are inside the waker's calls. */
  predicate Inside(s: State)
    requires Shaped(s)
  {
    var p, q := s.aw.pcs[0], s.aw.pcs[1];
    && (if s.sig == SWake(On) then p.TakeCell? || p.TakeClear? || p.TakeReturn? else p.Idle?)
    && (match s.wait
        case WTake(started) => if started.On? then q.TakeCell? || q.TakeClear? || q.TakeReturn? else q.Idle?
        case WRegister(started) => if started.On? then Registering(s, q) else q.Idle? && s.aw.sh.stores == s.mine
        case _ => q.Idle?)
  }

  predicate Registering(s: State, q: AtomicWaker.Pc) {
    match q
    case WakeByRef => true
    case Store => s.aw.sh.stores == s.mine
    case Release(n) => n == s.mine
    case Retake(n) => n == s.mine
    case Swap(n) => n == s.mine
    case WakeOwn(n) => n == s.mine
    case _ => false
  }

  /** The waker of the latest registration. */
  ghost predicate At(s: State, place: AtomicWaker.Place) { s.mine in s.aw.sh.places && s.aw.sh.places[s.mine] == place }

  predicate Registered(w: WaitPc) { w.WLook? || w.WClosed? || w.WPending? }

  /** Something was published that the waiting end has not noticed. */
  predicate Missed(s: State) {
    (s.wait.WClosed? && s.published != s.seen) || (s.wait.WPending? && (s.published != s.seen || s.closed.On?))
  }

  /** The signalling end is about to look into the cell. */
  predicate Coming(s: State)
    requires Shaped(s)
  {
    s.sig == SWake(Off) || s.aw.pcs[0].TakeCell?
  }

  ghost predicate Inv(s: State) {
    && Shaped(s) && AtomicWaker.Inv(s.aw) && Inside(s)
    && (Registered(s.wait) ==> s.woken.On? || At(s, AtomicWaker.InCell) || At(s, AtomicWaker.Held(0)))
    && (Missed(s) ==> s.woken.On? || At(s, AtomicWaker.Held(0)) || Coming(s))
  }

  /** With neither end inside a call, the cell is nobody's. */
  lemma Unowned(s: State)
    requires Inv(s) && s.aw.pcs[0].Idle? && s.aw.pcs[1].Idle?
    ensures s.aw.sh.owner == AtomicWaker.Nobody && s.aw.sh.registering.Off? && s.aw.sh.waking.Off?
  {
    assert AtomicWaker.ThreadInv(s.aw.sh, 0, s.aw.pcs[0]) && AtomicWaker.ThreadInv(s.aw.sh, 1, s.aw.pcs[1]);
  }

  lemma PublishKeeps(s: State, c: nat)
    requires Inv(s) && s.sig.SIdle?
    ensures Inv(DoSignal(s, c))
  {
  }

  /** The first step of a `wake`. */
  lemma WakeStarts(s: State, c: nat)
    requires Inv(s) && s.sig == SWake(Off)
    ensures Inv(DoSignal(s, c))
  {
    assert AtomicWaker.ThreadInv(s.aw.sh, 0, s.aw.pcs[0]) && AtomicWaker.ThreadInv(s.aw.sh, 1, s.aw.pcs[1]);
    AtomicWaker.MoveKeeps(s.aw, (0, 1));
    if s.aw.pcs[1].Idle? {
      Unowned(s);
    }
  }

  lemma WakeGoesOn(s: State, c: nat)
    requires Inv(s) && s.sig == SWake(On)
    ensures Inv(DoSignal(s, c))
  {
    assert AtomicWaker.ThreadInv(s.aw.sh, 0, s.aw.pcs[0]) && AtomicWaker.ThreadInv(s.aw.sh, 1, s.aw.pcs[1]);
    AtomicWaker.MoveKeeps(s.aw, (0, 1));
  }

  lemma LookKeeps(s: State, c: nat)
    requires Inv(s) && !s.wait.WTake? && !s.wait.WRegister?
    ensures Inv(DoWait(s, c))
  {
  }

  lemma TakeKeeps(s: State, c: nat)
    requires Inv(s) && s.wait.WTake?
    ensures Inv(DoWait(s, c))
  {
    assert AtomicWaker.ThreadInv(s.aw.sh, 1, s.aw.pcs[1]);
    AtomicWaker.MoveKeeps(s.aw, (1, 1));
  }

  lemma RegisterStarts(s: State, c: nat)
    requires Inv(s) && s.wait == WRegister(Off)
    ensures Inv(DoWait(s, c))
  {
    assert AtomicWaker.ThreadInv(s.aw.sh, 0, s.aw.pcs[0]) && AtomicWaker.ThreadInv(s.aw.sh, 1, s.aw.pcs[1]);
    AtomicWaker.MoveKeeps(s.aw, (1, 0));
  }

  lemma RegisterGoesOn(s: State, c: nat)
    requires Inv(s) && s.wait == WRegister(On)
    ensures Inv(DoWait(s, c))
  {
    assert AtomicWaker.ThreadInv(s.aw.sh, 1, s.aw.pcs[1]);
    AtomicWaker.MoveKeeps(s.aw, (1, 0));
  }

  lemma MoveKeeps(s: State, move: (Flag, nat))
    requires Inv(s)
    ensures Inv(Move(s, move))
  {
    if move.0.Off? {
      if s.sig.SIdle? {
        PublishKeeps(s, move.1);
      } else if s.sig.started.Off? {
        WakeStarts(s, move.1);
      } else {
        WakeGoesOn(s, move.1);
      }
    } else if s.wait.WTake? {
      TakeKeeps(s, move.1);
    } else if s.wait.WRegister? {
      if s.wait.started.Off? {
        RegisterStarts(s, move.1);
      } else {
        RegisterGoesOn(s, move.1);
      }
    } else {
      LookKeeps(s, move.1);
    }
  }

  lemma InitInv(s: State)
    requires Init(s)
    ensures Inv(s)
  {
    AtomicWaker.Reachable(s.aw, []);
  }

  // ---------------------------------------------------------------- what it is for

  /** The signalling end has the waker of the latest registration in hand. */
  predicate HoldsMine(s: State)
    requires Shaped(s)
  {
    AtomicWaker.HandOf(s.aw.pcs[0]) == Some(s.mine)
  }

  /** The waiting end has been woken since it registered, or the other end's `wake` has yet
      to look into the cell that holds the waker, or has it in hand. */
  predicate Attended(s: State)
    requires Shaped(s)
  {
    || s.woken.On?
    || (s.sig.SWake? && Coming(s) && s.aw.sh.cell == Some(s.mine))
    || (s.sig.SWake? && HoldsMine(s))
  }

  /** Whoever has missed something is attended to. */
  lemma MissedIsAttended(s: State)
    requires Inv(s) && Missed(s)
    ensures Attended(s)
  {
    assert AtomicWaker.ThreadInv(s.aw.sh, 0, s.aw.pcs[0]);
  }
}
