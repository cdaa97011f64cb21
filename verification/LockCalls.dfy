/** Whole calls on the RwLock: a call that nobody blocks ends with its guard, and guards
    turn into one another and back into a free lock. */
module LockCalls {
  import opened Tally
  import opened Solo
  import opened RwLock

  function Alone(): Out -> Out { (o: Out) => Do(o.sh, o.pc, 1) }

  lemma {:induction false} AloneIsRun(s: State, i: nat, n: nat)
    requires i < |s.pcs|
    ensures var o := Iterate(Alone(), Out(s.sh, s.pcs[i]), n);
            Execute(s, Own(i, 1, n)) == State(o.sh, s.pcs[i := o.pc])
    decreases n
  {
    if n > 0 {
      assert Own(i, 1, n)[1..] == Own(i, 1, n - 1);
      AloneIsRun(Move(s, (i, 1)), i, n - 1);
    }
  }

  ghost predicate Runs(a: Shared, p: Pc, b: Shared, q: Pc) { Leads(Alone(), Out(a, p), Out(b, q)) }

  lemma Stays(a: Shared, p: Pc)
    ensures Runs(a, p, a, p)
  {
    Arrived(Alone(), Out(a, p));
  }

  lemma Ahead(a: Shared, p: Pc, b: Shared, q: Pc)
    requires var o := Do(a, p, 1); Runs(o.sh, o.pc, b, q)
    ensures Runs(a, p, b, q)
  {
    Then(Alone(), Out(a, p), Out(b, q));
  }

  // ---------------------------------------------------------------- acquiring

  /** Without a writer, reading needs no more than its own compare-exchange. */
  lemma ReadRuns(a: Shared, once: Flag)
    requires a.state % 2 == 0
    ensures Runs(a, OnRead(ReadLoad(once)), a.(state := a.state + 2), OnRead(ReadGuard))
  {
    Stays(a.(state := a.state + 2), OnRead(ReadGuard));
    Ahead(a, OnRead(ReadTry(a.state, once)), a.(state := a.state + 2), OnRead(ReadGuard));
    Ahead(a, OnRead(ReadLoad(once)), a.(state := a.state + 2), OnRead(ReadGuard));
  }

  /** With the mutex free, an upgradable reader takes it and counts as a reader. */
  lemma UpgradableRuns(a: Shared, w: Want)
    requires a.mutex == 0 && (w.TryUpgradable? || w.Upgradable?)
    ensures Runs(a, OnMutex(TryLock(w)), a.(state := a.state + 2, mutex := 1), OnUpgrade(UpGuard))
  {
    var o := a.(mutex := 1);
    var b := a.(state := a.state + 2, mutex := 1);
    Stays(b, OnUpgrade(UpGuard));
    Ahead(o, OnUpgrade(UpCas(a.state)), b, OnUpgrade(UpGuard));
    Ahead(o, OnMutex(Locked(w)), b, OnUpgrade(UpGuard));
    Ahead(a, OnMutex(TryLock(w)), b, OnUpgrade(UpGuard));
  }

  lemma WriteRuns(a: Shared, w: Want)
    requires a.mutex == 0 && a.state == 0 && (w.TryWrite? || w.Write?)
    ensures Runs(a, OnMutex(TryLock(w)), a.(state := 1, mutex := 1), OnWrite(WriteGuard))
  {
    var o := a.(mutex := 1);
    var b := a.(state := 1, mutex := 1);
    Stays(b, OnWrite(WriteGuard));
    if w.Write? {
      Ahead(b, OnWrite(PendLoad), b, OnWrite(WriteGuard));
    }
    Ahead(o, OnMutex(Locked(w)), b, OnWrite(WriteGuard));
    Ahead(a, OnMutex(TryLock(w)), b, OnWrite(WriteGuard));
  }

  // ---------------------------------------------------------------- whole calls

  /** The calls that acquire a guard. */
  datatype Call =
    | CallTryRead
    | CallRead
    | CallTryUpgradable
    | CallUpgradable
    | CallTryWrite
    | CallWrite

  /** The choice with which an idle thread starts the call. */
  function Choice(c: Call): nat {
    match c
    case CallTryRead => 0
    case CallRead => 1
    case CallTryUpgradable => 2
    case CallUpgradable => 3
    case CallTryWrite => 4
    case CallWrite => 5
  }

  predicate Reads(c: Call) { c.CallTryRead? || c.CallRead? }

  predicate Writes(c: Call) { c.CallTryWrite? || c.CallWrite? }

  /** Nothing stands in the way of the call. */
  ghost predicate Unblocked(pcs: seq<Pc>, c: Call) {
    if Reads(c) then Sum(pcs, Writer) == 0
    else Sum(pcs, Lock) == 0 && Sum(pcs, Starved) == 0 && (Writes(c) ==> Sum(pcs, Reader) == 0)
  }

  /** The guard the call is for. */
  function GuardOf(c: Call): Pc {
    if Reads(c) then OnRead(ReadGuard) else if Writes(c) then OnWrite(WriteGuard) else OnUpgrade(UpGuard)
  }

  lemma CallRuns(a: Shared, c: Call) returns (b: Shared)
    requires if Reads(c) then a.state % 2 == 0 else a.mutex == 0 && (Writes(c) ==> a.state == 0)
    ensures var o := Do(a, Idle, Choice(c)); Runs(o.sh, o.pc, b, GuardOf(c))
  {
    match c
    case CallTryRead => b := a.(state := a.state + 2); ReadRuns(a, On);
    case CallRead => b := a.(state := a.state + 2); ReadRuns(a, Off);
    case CallTryUpgradable => b := a.(state := a.state + 2, mutex := 1); UpgradableRuns(a, TryUpgradable);
    case CallUpgradable => b := a.(state := a.state + 2, mutex := 1); UpgradableRuns(a, Upgradable);
    case CallTryWrite => b := a.(state := 1, mutex := 1); WriteRuns(a, TryWrite);
    case CallWrite => b := a.(state := 1, mutex := 1); WriteRuns(a, Write);
  }

  lemma GoesOn(s: State, i: nat, c: nat, b: Shared, q: Pc) returns (n: nat)
    requires i < |s.pcs| && var o := Do(s.sh, s.pcs[i], c); Runs(o.sh, o.pc, b, q)
    ensures Execute(s, [(i, c)] + Own(i, 1, n)) == State(b, s.pcs[i := q])
  {
    n :| Iterate(Alone(), Do(s.sh, s.pcs[i], c), n) == Out(b, q);
    AloneIsRun(Move(s, (i, c)), i, n);
    assert ([(i, c)] + Own(i, 1, n))[1..] == Own(i, 1, n);
  }

  /** A call that no other guard or waiter stands in the way of ends with its guard, if it
      runs alone. */
  lemma UnblockedAcquires(s: State, moves: seq<(nat, nat)>, i: nat, c: Call) returns (n: nat)
    requires Init(s) && i < |s.pcs| && Execute(s, moves).pcs[i] == Idle
    requires Unblocked(Execute(s, moves).pcs, c)
    ensures var t := Execute(s, moves);
            Execute(t, [(i, Choice(c))] + Own(i, 1, n)).pcs == t.pcs[i := GuardOf(c)]
  {
    WordsAreExact(s, moves);
    var t := Execute(s, moves);
    var b := CallRuns(t.sh, c);
    n := GoesOn(t, i, Choice(c), b, GuardOf(c));
  }

  // ---------------------------------------------------------------- waiting

  /** A point at which a lock's mutex is still to be acquired, by a call that waits for it. */
  predicate Queues(p: MutexPc) { !p.TryLock? && !p.Locked? && !p.StarvedCancel? }

  /** With the mutex unlocked, whoever queues for it gets it, starved or not. */
  lemma StarvedTakes(a: Shared, w: Want) returns (b: Shared)
    requires a.mutex >= 2 && a.mutex % 2 == 0
    ensures Runs(a, OnMutex(StarvedTake(w)), b, OnMutex(Locked(w))) && b.state == a.state
  {
    var o := a.(mutex := a.mutex + 1);
    b := a.(mutex := a.mutex - 1);
    Stays(b, OnMutex(Locked(w)));
    Ahead(o, OnMutex(StarvedLeave(w)), b, OnMutex(Locked(w)));
    Ahead(a, OnMutex(StarvedTake(w)), b, OnMutex(Locked(w)));
  }

  lemma StarvedTries(a: Shared, w: Want) returns (b: Shared)
    requires a.mutex >= 2 && a.mutex % 2 == 0
    ensures Runs(a, OnMutex(StarvedTry(w)), b, OnMutex(Locked(w))) && b.state == a.state
  {
    if a.mutex == 2 {
      b := a.(mutex := 1);
      Stays(b, OnMutex(Locked(w)));
      Ahead(a.(mutex := 3), OnMutex(StarvedLeave(w)), b, OnMutex(Locked(w)));
    } else {
      b := StarvedTakes(a, w);
      Ahead(a, OnMutex(StarvedAwait(w)), b, OnMutex(Locked(w)));
    }
    Ahead(a, OnMutex(StarvedTry(w)), b, OnMutex(Locked(w)));
  }

  lemma SlowTries(a: Shared, w: Want) returns (b: Shared)
    requires a.mutex >= 0 && a.mutex % 2 == 0
    ensures Runs(a, OnMutex(SlowTry(w)), b, OnMutex(Locked(w))) && b.state == a.state
    ensures Runs(a, OnMutex(SlowRetry(w)), b, OnMutex(Locked(w)))
  {
    if a.mutex == 0 {
      b := a.(mutex := 1);
      Stays(b, OnMutex(Locked(w)));
    } else {
      b := StarvedTries(a.(mutex := a.mutex + 2), w);
      Ahead(a, OnMutex(Starve(w)), b, OnMutex(Locked(w)));
    }
    Ahead(a, OnMutex(SlowTry(w)), b, OnMutex(Locked(w)));
    Ahead(a, OnMutex(SlowRetry(w)), b, OnMutex(Locked(w)));
  }

  lemma QueuedRuns(a: Shared, p: MutexPc) returns (b: Shared)
    requires Queues(p) && a.mutex >= 0
    requires if p.StarvedLeave? then a.mutex >= 3 else a.mutex % 2 == 0
    requires p.StarvedTry? || p.StarvedAwait? || p.StarvedTake? ==> a.mutex >= 2
    ensures Runs(a, OnMutex(p), b, OnMutex(Locked(p.want))) && b.state == a.state
  {
    match p
    case SlowTry(w) => b := SlowTries(a, w);
    case SlowAwait(w) => b := SlowTries(a, w); Ahead(a, OnMutex(p), b, OnMutex(Locked(w)));
    case SlowRetry(w) => b := SlowTries(a, w);
    case Starve(w) =>
      b := StarvedTries(a.(mutex := a.mutex + 2), w);
      Ahead(a, OnMutex(p), b, OnMutex(Locked(w)));
    case StarvedTry(w) => b := StarvedTries(a, w);
    case StarvedAwait(w) => b := StarvedTakes(a, w); Ahead(a, OnMutex(p), b, OnMutex(Locked(w)));
    case StarvedTake(w) => b := StarvedTakes(a, w);
    case StarvedLeave(w) =>
      b := a.(mutex := a.mutex - 2);
      Stays(b, OnMutex(Locked(w)));
      Ahead(a, OnMutex(p), b, OnMutex(Locked(w)));
  }

  /** A call that queues for the mutex, on the slow path or starved, gets it when it runs
      alone and nobody holds it. */
  lemma QueuedLocks(s: State, moves: seq<(nat, nat)>, i: nat) returns (n: nat)
    requires Init(s) && i < |Execute(s, moves).pcs| && Execute(s, moves).pcs[i].OnMutex?
    requires Queues(Execute(s, moves).pcs[i].lock)
    requires !Execute(s, moves).pcs[i].lock.StarvedLeave? ==> Sum(Execute(s, moves).pcs, Lock) == 0
    ensures var t := Execute(s, moves);
            Execute(t, Own(i, 1, n)).pcs == t.pcs[i := OnMutex(Locked(t.pcs[i].lock.want))]
  {
    Reachable(s, moves);
    var t := Execute(s, moves);
    LocalView(t, i);
    var b := QueuedRuns(t.sh, t.pcs[i].lock);
    var done := OnMutex(Locked(t.pcs[i].lock.want));
    n :| Iterate(Alone(), Out(t.sh, t.pcs[i]), n) == Out(b, done);
    AloneIsRun(t, i, n);
  }

  /** A reader that waits, and a pending writer that has been told or looks again. */
  predicate Waits(a: Shared, p: Pc) {
    match p
    case OnRead(x) => x.ReadListen? || x.ReadAwait?
    case OnWrite(x) => x.PendLoad? || x.PendListen? || x.PendCheck? || (x.PendAwait? && a.ear.Told?)
    case _ => false
  }

  /** A reader that waits reads when there is no writer any more, and a pending writer that
      has been told, or looks again, acquires the lock when no reader is left. */
  lemma WaiterAcquires(s: State, moves: seq<(nat, nat)>, i: nat) returns (n: nat)
    requires Init(s) && i < |Execute(s, moves).pcs| && Waits(Execute(s, moves).sh, Execute(s, moves).pcs[i])
    requires var t := Execute(s, moves);
             if t.pcs[i].OnRead? then Sum(t.pcs, Writer) == 0 else Sum(t.pcs, Reader) == 0
    ensures var t := Execute(s, moves);
            Execute(t, Own(i, 1, n)).pcs
            == t.pcs[i := if t.pcs[i].OnRead? then OnRead(ReadGuard) else OnWrite(WriteGuard)]
  {
    Reachable(s, moves);
    var t := Execute(s, moves);
    LocalView(t, i);
    var done := if t.pcs[i].OnRead? then OnRead(ReadGuard) else OnWrite(WriteGuard);
    var b := if t.pcs[i].OnRead? then t.sh.(state := t.sh.state + 2) else WaitedOut(t.sh, t.pcs[i].write);
    if t.pcs[i].OnRead? {
      WaitsToRead(t.sh, t.pcs[i].read);
    } else {
      WaitsToWrite(t.sh, t.pcs[i].write);
    }
    n :| Iterate(Alone(), Out(t.sh, t.pcs[i]), n) == Out(b, done);
    AloneIsRun(t, i, n);
  }

  lemma WaitsToRead(a: Shared, p: ReadPc)
    requires a.state % 2 == 0 && (p.ReadListen? || p.ReadAwait?)
    ensures Runs(a, OnRead(p), a.(state := a.state + 2), OnRead(ReadGuard))
  {
    ReadRuns(a, Off);
    Ahead(a, OnRead(p), a.(state := a.state + 2), OnRead(ReadGuard));
  }

  /** The event's listener is gone when the writer has stopped waiting. */
  function WaitedOut(a: Shared, p: WritePc): Shared { if p.PendLoad? then a else a.(ear := NoEar) }

  lemma WaitsToWrite(a: Shared, p: WritePc)
    requires a.state == 1
    requires p.PendLoad? || p.PendListen? || p.PendCheck? || (p.PendAwait? && a.ear.Told?)
    ensures Runs(a, OnWrite(p), WaitedOut(a, p), OnWrite(WriteGuard))
  {
    var b := WaitedOut(a, p);
    Stays(b, OnWrite(WriteGuard));
    if p.PendLoad? {
      Ahead(a, OnWrite(p), b, OnWrite(WriteGuard));
    } else {
      Ahead(b, OnWrite(PendLoad), b, OnWrite(WriteGuard));
      if p.PendListen? {
        Ahead(a.(ear := Listening), OnWrite(PendCheck), b, OnWrite(WriteGuard));
      }
      Ahead(a, OnWrite(p), b, OnWrite(WriteGuard));
    }
  }

  // ---------------------------------------------------------------- giving up and converting

  /** What one does with a guard. */
  datatype Use =
    | DropRead
    | DropUpgradable
    | DowngradeUpgradable
    | TryUpgrade
    | Upgrade
    | DropWrite
    | DowngradeWrite
    | ToUpgradable

  /** The guard it starts from, the choice that starts it, and what it ends with. */
  function Turns(u: Use): (Pc, nat, Pc) {
    match u
    case DropRead => (OnRead(ReadGuard), 0, Idle)
    case DropUpgradable => (OnUpgrade(UpGuard), 0, Idle)
    case DowngradeUpgradable => (OnUpgrade(UpGuard), 1, OnRead(ReadGuard))
    case TryUpgrade => (OnUpgrade(UpGuard), 2, OnWrite(WriteGuard))
    case Upgrade => (OnUpgrade(UpGuard), 3, OnWrite(WriteGuard))
    case DropWrite => (OnWrite(WriteGuard), 0, Idle)
    case DowngradeWrite => (OnWrite(WriteGuard), 1, OnRead(ReadGuard))
    case ToUpgradable => (OnWrite(WriteGuard), 2, OnUpgrade(UpGuard))
  }

  /** Dropping: the last reader notifies on its way. */
  lemma ReadDrops(a: Shared) returns (b: Shared)
    ensures var o := Do(a, OnRead(ReadGuard), 0); Runs(o.sh, o.pc, b, Idle)
  {
    var o := Do(a, OnRead(ReadGuard), 0);
    b := if o.pc == Idle then o.sh else Notified(o.sh);
    Stays(b, Idle);
    if o.pc != Idle {
      Ahead(o.sh, o.pc, b, Idle);
    }
  }

  lemma UpgradableDrops(a: Shared) returns (b: Shared)
    ensures Runs(a, OnUpgrade(UpDrop), b, Idle)
  {
    var o := Do(a, OnUpgrade(UpDrop), 1);
    var told := if o.pc == OnUpgrade(UpNotify) then Notified(o.sh) else o.sh;
    b := told.(mutex := told.mutex - 1);
    Stays(b, Idle);
    Ahead(told, OnUpgrade(UpDropLock), b, Idle);
    if o.pc == OnUpgrade(UpNotify) {
      Ahead(o.sh, o.pc, b, Idle);
    }
    Ahead(a, OnUpgrade(UpDrop), b, Idle);
  }

  lemma WriteDrops(a: Shared) returns (b: Shared)
    ensures Runs(a, OnWrite(WriteDrop), b, Idle)
  {
    var o := Do(a, OnWrite(WriteDrop), 1);
    b := o.sh.(mutex := o.sh.mutex - 1);
    Stays(b, Idle);
    Ahead(o.sh, OnWrite(WriteDropLock(Off)), b, Idle);
    Ahead(a, OnWrite(WriteDrop), b, Idle);
  }

  lemma Downgrades(a: Shared) returns (b: Shared)
    ensures Runs(a, OnWrite(WriteDowngrade), b, OnRead(ReadGuard))
    ensures Runs(a, OnUpgrade(UpDowngrade), b, OnRead(ReadGuard))
  {
    b := a.(mutex := a.mutex - 1);
    Stays(b, OnRead(ReadGuard));
    Ahead(a, OnWrite(WriteDowngrade), b, OnRead(ReadGuard));
    Ahead(a, OnUpgrade(UpDowngrade), b, OnRead(ReadGuard));
  }

  lemma Upgrades(a: Shared, c: nat) returns (b: Shared)
    requires a.state == 2 && 2 <= c <= 3
    ensures var o := Do(a, OnUpgrade(UpGuard), c); Runs(o.sh, o.pc, b, OnWrite(WriteGuard))
  {
    b := a.(state := 1);
    Stays(b, OnWrite(WriteGuard));
    if c == 3 {
      Ahead(b, OnWrite(PendLoad), b, OnWrite(WriteGuard));
    }
  }

  lemma UseRuns(a: Shared, u: Use) returns (b: Shared)
    requires u.TryUpgrade? || u.Upgrade? ==> a.state == 2
    ensures var o := Do(a, Turns(u).0, Turns(u).1); Runs(o.sh, o.pc, b, Turns(u).2)
  {
    match u
    case DropRead => b := ReadDrops(a);
    case DropUpgradable => b := UpgradableDrops(a);
    case DowngradeUpgradable => b := Downgrades(a);
    case TryUpgrade => b := Upgrades(a, 2);
    case Upgrade => b := Upgrades(a, 3);
    case DropWrite => b := WriteDrops(a);
    case DowngradeWrite => b := Downgrades(a.(state := a.state + 1));
    case ToUpgradable =>
      b := a.(state := a.state + 1);
      Stays(b, OnUpgrade(UpGuard));
  }

  /** A guard is dropped, downgraded or upgraded to the guard its method is for; an upgrade,
      alone, needs that there is no other reader. What that leaves in the two words is
      stated by `WordsAreExact`. */
  lemma GuardsConvert(s: State, moves: seq<(nat, nat)>, i: nat, u: Use) returns (n: nat)
    requires Init(s) && i < |s.pcs| && Execute(s, moves).pcs[i] == Turns(u).0
    requires u.TryUpgrade? || u.Upgrade? ==> Sum(Execute(s, moves).pcs, Reader) == 1
    ensures var t := Execute(s, moves);
            Execute(t, [(i, Turns(u).1)] + Own(i, 1, n)).pcs == t.pcs[i := Turns(u).2]
  {
    Reachable(s, moves);
    var t := Execute(s, moves);
    LocalView(t, i);
    var b := UseRuns(t.sh, u);
    n := GoesOn(t, i, Turns(u).1, b, Turns(u).2);
  }
}
