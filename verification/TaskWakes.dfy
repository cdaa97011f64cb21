/** A task's own wake-up is never lost: SCHEDULED, once seen or set by `wake` or
    `wake_by_ref`, leads to a new poll unless the task is over. */
module TaskWakes {
  import opened Tally
  import opened TaskModel
  import opened TaskLifecycle

  predicate Over(w: Word) { w.completed.On? || w.closed.On? }

  /** In the compare-exchange loop of `wake` or `wake_by_ref`. */
  predicate InWake(p: Pc) { p.OnWaker? && (p.waker.WakeLoop? || p.waker.WbrLoop?) }

  /** The step that takes the Runnable's turn: SCHEDULED gives way to RUNNING. */
  predicate StartsPoll(p: Pc, q: Pc) {
    p.OnRun? && p.run.RunLoop? && q.OnRun? && q.run.Poll?
  }

  /** The loops end only with the task scheduled or over. */
  lemma WakeEnds(a: Shared, p: Pc, c: nat)
    requires ThreadInv(a, p) && InWake(p) && !InWake(Do(a, p, c).pc)
    ensures Do(a, p, c).sh.w.scheduled.On? || Over(Do(a, p, c).sh.w)
  {
  }

  /** A step that clears SCHEDULED starts a poll or leaves the task over. */
  predicate Cleared(a: Shared, p: Pc, o: Out) {
    a.w.scheduled.On? && !o.sh.w.scheduled.On? ==> StartsPoll(p, o.pc) || Over(o.sh.w)
  }

  lemma RunClears(a: Shared, p: RunPc, c: nat)
    requires RunInv(a.w, p)
    ensures Cleared(a, OnRun(p), DoRun(a, p, c))
  {
  }

  lemma FinishClears(a: Shared, p: FinishPc, c: nat)
    requires FinishInv(a.w, p)
    ensures Cleared(a, OnFinish(p), DoFinish(a, p, c))
  {
  }

  lemma PanicClears(a: Shared, p: PanicPc, c: nat)
    requires PanicInv(a.w, p)
    ensures Cleared(a, OnPanic(p), DoPanic(a, p, c))
  {
  }

  lemma DropClears(a: Shared, p: DropPc, c: nat)
    requires ThreadInv(a, OnDrop(p))
    ensures Cleared(a, OnDrop(p), DoDrop(a, p, c))
  {
  }

  /** No other step clears it. */
  lemma OthersClear(a: Shared, p: Pc, c: nat)
    requires !p.OnRun? && !p.OnFinish? && !p.OnPanic? && !p.OnDrop?
    ensures a.w.scheduled.On? ==> Do(a, p, c).sh.w.scheduled.On?
  {
  }

  lemma StepClears(a: Shared, p: Pc, c: nat)
    requires ThreadInv(a, p)
    ensures Cleared(a, p, Do(a, p, c))
  {
    match p
    case OnRun(x) => RunClears(a, x, c);
    case OnFinish(x) => FinishClears(a, x, c);
    case OnPanic(x) => PanicClears(a, x, c);
    case OnDrop(x) => DropClears(a, x, c);
    case _ => OthersClear(a, p, c);
  }

  /** Some move of the schedule starts a poll. */
  predicate PolledIn(s: State, moves: Schedule)
    decreases |moves|
  {
    && moves != []
    && (PollsNow(s, moves[0]) || PolledIn(Move(s, moves[0]), moves[1..]))
  }

  predicate PollsNow(s: State, move: (nat, nat)) {
    move.0 < |s.pcs| && StartsPoll(s.pcs[move.0], Do(s.sh, s.pcs[move.0], move.1).pc)
  }

  /** SCHEDULED stays until a poll starts or the task is over, and over is for good. */
  lemma {:induction false} ScheduledUntilPolled(s: State, moves: Schedule)
    requires Inv(s) && (s.sh.w.scheduled.On? || Over(s.sh.w))
    ensures var t := Execute(s, moves); t.sh.w.scheduled.On? || Over(t.sh.w) || PolledIn(s, moves)
    decreases |moves|
  {
    if moves != [] && !PollsNow(s, moves[0]) {
      var (i, c) := moves[0];
      if i < |s.pcs| {
        LocalView(s, i);
        StepClears(s.sh, s.pcs[i], c);
        LocalStep(s.sh, s.pcs[i], c);
        StepKeeps(s, i, c);
      }
      ScheduledUntilPolled(Move(s, moves[0]), moves[1..]);
    }
  }

  /** Over every run: after a `wake` or `wake_by_ref` has left its loop, the task stays
      scheduled until it is polled anew, unless it is completed or closed. */
  lemma WakeIsNeverLost(s: State, before: Schedule, i: nat, c: nat, after: Schedule)
    requires Init(s) && i < |Execute(s, before).pcs| && InWake(Execute(s, before).pcs[i])
    requires !InWake(After(Execute(s, before), i, c).pcs[i])
    ensures var u := After(Execute(s, before), i, c);
            var t := Execute(u, after);
            t.sh.w.scheduled.On? || Over(t.sh.w) || PolledIn(u, after)
  {
    Reachable(s, before);
    var t := Execute(s, before);
    LocalView(t, i);
    WakeEnds(t.sh, t.pcs[i], c);
    StepKeeps(t, i, c);
    ScheduledUntilPolled(After(t, i, c), after);
  }
}
