/** Two runs of the task state machine that end badly, step by step. */
module TaskWitness {
  import opened Tally
  import opened TaskModel
  import opened TaskLifecycle
  import opened TaskAwaiter

  /** The choices of one thread running alone for a while. */
  datatype Choices = Stop | Pick(c: nat, rest: Choices)

  function Solo(o: Out, cs: Choices): Out
    decreases cs
  {
    match cs
    case Stop => o
    case Pick(c, rest) => Solo(Do(o.sh, o.pc, c), rest)
  }

  lemma {:induction false} Compose(s: State, first: Schedule, rest: Schedule)
    ensures Execute(s, first + rest) == Execute(Execute(s, first), rest)
    decreases |first|
  {
    if first == [] {
      assert first + rest == rest;
    } else {
      Compose(Move(s, first[0]), first[1..], rest);
      assert (first + rest)[1..] == first[1..] + rest;
    }
  }

  lemma {:induction false} SoloRuns(s: State, i: nat, cs: Choices) returns (moves: Schedule)
    requires i < |s.pcs|
    ensures var o := Solo(Out(s.sh, s.pcs[i]), cs);
            Execute(s, moves) == State(o.sh, s.pcs[i := o.pc])
    decreases cs
  {
    match cs
    case Stop =>
      moves := [];
    case Pick(c, rest) =>
      var later := SoloRuns(Move(s, (i, c)), i, rest);
      moves := [(i, c)] + later;
      assert moves[1..] == later;
      assert s.pcs[i := Do(s.sh, s.pcs[i], c).pc][i] == Do(s.sh, s.pcs[i], c).pc;
  }

  /** Appends a stretch of thread `i` to a run. */
  lemma Extend(s: State, moves: Schedule, i: nat, cs: Choices) returns (longer: Schedule)
    requires i < |Execute(s, moves).pcs|
    ensures var t := Execute(s, moves);
            var o := Solo(Out(t.sh, t.pcs[i]), cs);
            Execute(s, longer) == State(o.sh, t.pcs[i := o.pc])
  {
    var later := SoloRuns(Execute(s, moves), i, cs);
    Compose(s, moves, later);
    longer := moves + later;
  }

  /** A task after `spawn_unchecked` with the given word, history and values at rest. */
  function Bare(w: Word, runnables: nat): Shared {
    Shared(w, None, Off, 0, runnables, 1, HasFuture, 0, 0, 0, 0, 0, None, Off, {}, Off)
  }

  /** The runner starts the poll. */
  lemma PollStarts()
    ensures Solo(Out(Bare(Word(On, Off, Off, Off, On, Off, Off, Off, 1), 1), Idle), Pick(4, Pick(0, Pick(1, Stop))))
            == Out(Bare(Word(Off, On, Off, Off, On, Off, Off, Off, 1), 0),
                   OnRun(Poll(Word(Off, On, Off, Off, On, Off, Off, Off, 1))))
  {
  }

  /** The handle cancels the running task. */
  lemma Cancels()
    ensures Solo(Out(Bare(Word(Off, On, Off, Off, On, Off, Off, Off, 1), 0), Idle),
                 Pick(8, Pick(0, Pick(1, Pick(0, Stop)))))
            == Out(Bare(Word(Off, On, Off, On, On, Off, Off, Off, 1), 0), Idle)
  {
  }

  /** The poll panics; the guard loads a closed word without awaiter. */
  lemma Panics()
    ensures Solo(Out(Bare(Word(Off, On, Off, On, On, Off, Off, Off, 1), 0),
                     OnRun(Poll(Word(Off, On, Off, Off, On, Off, Off, Off, 1)))),
                 Pick(4, Pick(0, Pick(0, Stop))))
            == Out(Bare(Word(Off, On, Off, On, On, Off, Off, Off, 1), 0),
                   OnPanic(GuardClosed(Word(Off, On, Off, On, On, Off, Off, Off, 1))))
  {
  }

  function Registered(): Shared {
    Bare(Word(Off, On, Off, On, On, On, Off, Off, 1), 0)
      .(cell := Some(0), polls := 1, waiting := Some(0), parked := On)
  }

  /** The handle is in use, for the first poll. */
  function Polled(w: Word): Shared { Bare(w, 0).(handles := 0, polls := 1) }

  /** The handle is polled and finds the task closed and running. */
  lemma Asks()
    ensures Solo(Out(Bare(Word(Off, On, Off, On, On, Off, Off, Off, 1), 0), Idle), Pick(7, Pick(0, Pick(0, Stop))))
            == Out(Polled(Word(Off, On, Off, On, On, Off, Off, Off, 1)), OnRegister(Reg(0, On)))
  {
  }

  /** It takes REGISTERING. */
  lemma Enrols()
    ensures Solo(Out(Polled(Word(Off, On, Off, On, On, Off, Off, Off, 1)), OnRegister(Reg(0, On))),
                 Pick(0, Pick(1, Stop)))
            == Out(Polled(Word(Off, On, Off, On, On, Off, On, Off, 1)),
                   OnRegister(RegStore(Word(Off, On, Off, On, On, Off, On, Off, 1), 0, On)))
  {
  }

  /** It stores its waker and sets AWAITER. */
  lemma Registers()
    ensures Solo(Out(Polled(Word(Off, On, Off, On, On, Off, On, Off, 1)),
                     OnRegister(RegStore(Word(Off, On, Off, On, On, Off, On, Off, 1), 0, On))),
                 Pick(0, Pick(1, Stop)))
            == Out(Polled(Word(Off, On, Off, On, On, On, Off, Off, 1)).(cell := Some(0), waiting := Some(0)),
                   OnHandle(PtCheck(0, On)))
  {
  }

  /** It returns Pending. */
  lemma Waits()
    ensures Solo(Out(Polled(Word(Off, On, Off, On, On, On, Off, Off, 1)).(cell := Some(0), waiting := Some(0)),
                     OnHandle(PtCheck(0, On))), Pick(0, Pick(0, Stop)))
            == Out(Registered(), Idle)
  {
  }

  /** The guard closes the task without looking for the awaiter. */
  lemma Abandons()
    ensures Solo(Out(Registered(), OnPanic(GuardClosed(Word(Off, On, Off, On, On, Off, Off, Off, 1)))),
                 Pick(0, Pick(0, Pick(0, Stop))))
            == Out(Registered().(w := Word(Off, Off, Off, On, On, On, Off, Off, 0),
                                 stage := Gone, futureDrops := 1, stale := On), Idle)
  {
  }

  function TwoThreads(): State { State(Bare(Fresh(), 1), [Idle, Idle]) }

  lemma ReachGuard() returns (moves: Schedule)
    ensures Execute(TwoThreads(), moves)
            == State(Bare(Word(Off, On, Off, On, On, Off, Off, Off, 1), 0),
                     [OnPanic(GuardClosed(Word(Off, On, Off, On, On, Off, Off, Off, 1))), Idle])
  {
    PollStarts();
    Cancels();
    Panics();
    moves := Extend(TwoThreads(), [], 0, Pick(4, Pick(0, Pick(1, Stop))));
    moves := Extend(TwoThreads(), moves, 1, Pick(8, Pick(0, Pick(1, Pick(0, Stop)))));
    moves := Extend(TwoThreads(), moves, 0, Pick(4, Pick(0, Pick(0, Stop))));
  }

  lemma ReachParked() returns (moves: Schedule)
    ensures Execute(TwoThreads(), moves)
            == State(Registered(), [OnPanic(GuardClosed(Word(Off, On, Off, On, On, Off, Off, Off, 1))), Idle])
  {
    moves := ReachGuard();
    Asks();
    moves := Extend(TwoThreads(), moves, 1, Pick(7, Pick(0, Pick(0, Stop))));
    Enrols();
    moves := Extend(TwoThreads(), moves, 1, Pick(0, Pick(1, Stop)));
    Registers();
    moves := Extend(TwoThreads(), moves, 1, Pick(0, Pick(1, Stop)));
    Waits();
    moves := Extend(TwoThreads(), moves, 1, Pick(0, Pick(0, Stop)));
  }

  /** The exception is real: in this run all threads are idle, the task is closed
      for good, and the waker of a pending `poll_task` sits in the cell unwoken. */
  lemma StaleGuardLosesWakeup() returns (s: State, moves: Schedule)
    ensures Init(s)
    ensures var t := Execute(s, moves);
            && t.sh.parked.On? && Decided(t.sh.w) && t.sh.stale.On?
            && t.sh.waiting == Some(0) && 0 !in t.sh.woken
            && forall i :: 0 <= i < |t.pcs| ==> t.pcs[i] == Idle
  {
    s := TwoThreads();
    Abandons();
    moves := ReachParked();
    moves := Extend(s, moves, 0, Pick(0, Pick(0, Pick(0, Stop))));
  }

  // ---------------------------------------------------------------- the leaked future

  /** The handle detaches the running task. */
  lemma Detaches()
    ensures Solo(Out(Bare(Word(Off, On, Off, Off, On, Off, Off, Off, 1), 0), Idle), Pick(9, Pick(0, Pick(1, Stop))))
            == Out(Bare(Word(Off, On, Off, Off, Off, Off, Off, Off, 1), 0).(handles := 0), Idle)
  {
  }

  /** The poll returns Pending and the runner gives up the last reference. */
  lemma EndsPending()
    ensures Solo(Out(Bare(Word(Off, On, Off, Off, Off, Off, Off, Off, 1), 0).(handles := 0),
                     OnRun(Poll(Word(Off, On, Off, Off, On, Off, Off, Off, 1)))),
                 Pick(3, Pick(1, Pick(1, Pick(0, Stop)))))
            == Out(Bare(Word(Off, Off, Off, Off, Off, Off, Off, Off, 0), 0).(handles := 0), OnRelease(Destroy(Leave)))
  {
  }

  /** A detached task that is still pending is destroyed with its future in place. */
  lemma DetachedPendingLeaks() returns (s: State, moves: Schedule)
    ensures Init(s)
    ensures var t := Execute(s, moves);
            |t.pcs| > 0 && Frees(t.pcs[0]) && t.sh.stage == HasFuture && t.sh.futureDrops == 0
  {
    s := TwoThreads();
    PollStarts();
    Detaches();
    EndsPending();
    moves := Extend(s, [], 0, Pick(4, Pick(0, Pick(1, Stop))));
    moves := Extend(s, moves, 1, Pick(9, Pick(0, Pick(1, Stop))));
    moves := Extend(s, moves, 0, Pick(3, Pick(1, Pick(1, Pick(0, Stop)))));
  }
}
