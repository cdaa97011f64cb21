/** Ownership of a task over whole runs: references, the single Runnable or
    runner, the future, the output and the allocation itself. */
module TaskLifecycle {
  import opened Tally
  import opened TaskModel

  // ---------------------------------------------------------------- who owns what

  /** A thread's share of the task: references (its wakers, its Runnable, its run),
      the Runnable it holds or runs without RUNNING set, the RUNNING bit, the Task
      handle, the right to bury the task once the last reference is gone, and the
      future, the emptied storage and the output it still has to dispose of. */
  datatype Share = Share(
    refs: int, holder: int, running: int, handle: int,
    burial: int, future: int, emptied: int, output: int)

  function Nothing(): Share { Share(0, 0, 0, 0, 0, 0, 0, 0) }
  function AReference(): Share { Share(1, 0, 0, 0, 0, 0, 0, 0) }
  function ARunnable(future: int): Share { Share(1, 1, 0, 0, 0, future, 0, 0) }
  function ARunner(future: int): Share { Share(1, 0, 1, 0, 0, future, 0, 0) }
  function AHandle(output: int): Share { Share(0, 0, 0, 1, 0, 0, 0, output) }

  function OfWaking(k: Waking): Share { if k.InPoll? then ARunner(1) else AReference() }

  function OfCaller(c: Caller): Share {
    match c
    case RunTail => AReference()
    case DropTail => AReference()
    case CancelTail => AHandle(0)
    case NoneTail => AHandle(0)
    case OutTail => AHandle(1)
  }

  /** The handle kept while a cancelling thread schedules the task. */
  function OfAfter(k: Then): int { if k.CancelNotify? then 1 else 0 }

  function OfWaker(p: WakerPc): Share {
    match p
    case Wake => AReference()
    case WakeLoop(_) => AReference()
    case Wbr(k) => OfWaking(k)
    case WbrLoop(_, k) => OfWaking(k)
    case WbrCall(k) => if k.InPoll? then Share(2, 1, 1, 0, 0, 2, 0, 0) else Share(2, 1, 0, 0, 0, 1, 0, 0)
    case WbrReturn(k) => OfWaking(k)
    case DropWaker(k) => Share(1, 0, 0, OfAfter(k), 0, 0, 0, 0)
    case LastWaker(k) => Share(0, 0, 0, OfAfter(k), 1, 0, 0, 0)
  }

  function OfRelease(p: ReleasePc): Share {
    match p
    case DropRef(k) => Share(1, 0, 0, OfAfter(k), 0, 0, 0, 0)
    case Destroy(k) => Share(0, 0, 0, OfAfter(k), 1, 0, 0, 0)
    case Sched(k) => Share(1, 1, 0, OfAfter(k), 0, 1, 0, 0)
    case SchedCall(k, tmp) => Share(if tmp.On? then 2 else 1, 1, 0, OfAfter(k), 0, 1, 0, 0)
    case SchedReturn(k, tmp) => Share(if tmp.On? then 1 else 0, 0, 0, OfAfter(k), 0, 0, 0, 0)
  }

  function OfRun(p: RunPc): Share {
    match p
    case Run => ARunnable(1)
    case RunLoop(_) => ARunnable(1)
    case RunClosed => ARunnable(1)
    case RunClosedClear => ARunnable(0)
    case Poll(_) => ARunner(1)
  }

  function OfFinish(p: FinishPc): Share {
    match p
    case ReadyDrop(_) => ARunner(1)
    case ReadyWrite(_) => Share(1, 0, 1, 0, 0, 0, 1, 0)
    case ReadyLoop(_) => Share(1, 0, 1, 0, 0, 0, 0, 1)
    case ReadyDropOut(_) => Share(1, 0, 0, 0, 0, 0, 0, 1)
    case PendLoop(_, dropped) => ARunner(if dropped.On? then 0 else 1)
  }

  function OfPanic(p: PanicPc): Share {
    match p
    case Guard => ARunner(1)
    case GuardLoop(_) => ARunner(1)
    case GuardClosed(_) => ARunner(1)
    case GuardClear(_) => ARunner(0)
    case GuardDrop(_) => Share(1, 0, 0, 0, 0, 1, 0, 0)
  }

  function OfTake(p: TakePc): Share {
    match p
    case Take(c) => OfCaller(c)
    case TakeCell(c) => OfCaller(c)
    case TakeClear(c, _) => OfCaller(c)
    case WakeIt(_, c) => OfCaller(c)
    case WakeLast(_) => Nothing()
  }

  function Of(p: Pc): Share {
    match p
    case Idle => Nothing()
    case OnWaker(x) => OfWaker(x)
    case OnRelease(x) => OfRelease(x)
    case OnRun(x) => OfRun(x)
    case OnFinish(x) => OfFinish(x)
    case OnPanic(x) => OfPanic(x)
    case OnDrop(x) => ARunnable(if x.RdClear? then 0 else 1)
    case OnTake(x) => OfTake(x)
    case OnRegister(_) => AHandle(0)
    case OnHandle(x) => AHandle(if x.PtOut? then 1 else 0)
    case OnGive(x) => AHandle(if x.SdRead? then 1 else 0)
  }

  function Refs(p: Pc): nat { Of(p).refs }
  function Holder(p: Pc): nat { Of(p).holder }
  function Running(p: Pc): nat { Of(p).running }
  function Handle(p: Pc): nat { Of(p).handle }
  function Burial(p: Pc): nat { Of(p).burial }
  function Future(p: Pc): nat { Of(p).future }
  function Emptied(p: Pc): nat { Of(p).emptied }
  function Output(p: Pc): nat { Of(p).output }

  // ---------------------------------------------------------------- the invariant

  /** What all threads together must own, read off the shared state. A dormant
      task (neither scheduled, running, completed nor closed) keeps its own future;
      a completed one that is not closed keeps its own output. */
  function Due(a: Shared): Share {
    Share(
      a.w.refs - a.wakers - a.runnables,
      (if a.w.scheduled.On? && !a.w.running.On? then 1 else 0) - a.runnables,
      if a.w.running.On? then 1 else 0,
      (if a.w.task.On? then 1 else 0) - a.handles,
      (if a.w.refs > 0 || a.w.task.On? then 0 else 1) - a.destroys,
      (if a.stage == HasFuture then 1 else 0) - a.runnables
      - (if !a.w.scheduled.On? && !a.w.running.On? && !a.w.completed.On? && !a.w.closed.On? then 1 else 0),
      if a.stage == Vacant then 1 else 0,
      (if a.stage == HasOutput then 1 else 0) - (if a.w.completed.On? && !a.w.closed.On? then 1 else 0))
  }

  /** Each resource is owned exactly once. */
  ghost predicate Balanced(s: State) {
    var due := Due(s.sh);
    && Sum(s.pcs, Refs) == due.refs
    && Sum(s.pcs, Holder) == due.holder
    && Sum(s.pcs, Running) == due.running
    && Sum(s.pcs, Handle) == due.handle
    && Sum(s.pcs, Burial) == due.burial
    && Sum(s.pcs, Future) == due.future
    && Sum(s.pcs, Emptied) == due.emptied
    && Sum(s.pcs, Output) == due.output
  }

  predicate Flags(a: Shared) {
    && (a.w.completed.On? ==> !a.w.scheduled.On? && !a.w.running.On?)
    && (a.w.completed.On? && !a.w.task.On? ==> a.w.closed.On?)
    && a.futureDrops == (if a.stage == HasFuture then 0 else 1)
    && a.outputWrites == a.outputTakes + (if a.stage == HasOutput then 1 else 0)
    && a.outputWrites <= 1
    && (a.stage == HasFuture || a.stage == Vacant ==> a.outputWrites == 0)
  }

  /** A snapshot taken earlier: COMPLETED and CLOSED never go away. */
  predicate Earlier(s: Word, w: Word) {
    (s.completed.On? ==> w.completed.On?) && (s.closed.On? ==> w.closed.On?)
  }

  /** What each program point knows about the shared word. */
  predicate ThreadInv(a: Shared, p: Pc) {
    match p
    case OnWaker(x) => WakerInv(a.w, x)
    case OnRun(x) => RunInv(a.w, x)
    case OnFinish(x) => FinishInv(a.w, x)
    case OnPanic(x) => PanicInv(a.w, x)
    case OnDrop(x) => if x.RdLoop? then Earlier(x.s, a.w) else x.RdDrop? || x.RdClear? ==> a.w.closed.On?
    case _ => true
  }

  predicate WakerInv(w: Word, p: WakerPc) {
    match p
    case LastWaker(_) => !w.completed.On? && !w.closed.On?
    case Wbr(InPoll(s)) => Earlier(s, w)
    case WakeLoop(s) => Earlier(s, w)
    case WbrLoop(s, k) => Earlier(s, w) && (k.InPoll? ==> Earlier(k.s, w))
    case WbrCall(InPoll(s)) => Earlier(s, w)
    case WbrReturn(InPoll(s)) => Earlier(s, w)
    case _ => true
  }

  predicate RunInv(w: Word, p: RunPc) {
    match p
    case Run => true
    case RunLoop(s) => Earlier(s, w)
    case RunClosed => w.closed.On?
    case RunClosedClear => w.closed.On?
    case Poll(s) => Earlier(s, w)
  }

  predicate FinishInv(w: Word, p: FinishPc) {
    match p
    case ReadyDropOut(_) => true
    case PendLoop(s, dropped) => Earlier(s, w) && (dropped.On? ==> w.closed.On?)
    case _ => Earlier(p.s, w)
  }

  predicate PanicInv(w: Word, p: PanicPc) {
    match p
    case Guard => true
    case GuardLoop(s) => Earlier(s, w)
    case _ => w.closed.On?
  }

  ghost predicate Inv(s: State) {
    && Balanced(s) && Flags(s.sh)
    && forall i :: 0 <= i < |s.pcs| ==> ThreadInv(s.sh, s.pcs[i])
  }

  // ---------------------------------------------------------------- one thread's view

  predicate Within(h: Share, due: Share) {
    && h.refs <= due.refs && h.holder <= due.holder && h.running <= due.running
    && h.handle <= due.handle && h.burial <= due.burial && h.future <= due.future
    && h.emptied <= due.emptied && h.output <= due.output
  }

  function Plus(h: Share, g: Share): Share {
    Share(h.refs + g.refs, h.holder + g.holder, h.running + g.running, h.handle + g.handle,
          h.burial + g.burial, h.future + g.future, h.emptied + g.emptied, h.output + g.output)
  }

  predicate Local(a: Shared, p: Pc) {
    && Within(Of(p), Due(a)) && Flags(a) && ThreadInv(a, p)
    && (a.w.scheduled.On? || a.w.running.On? ==> a.w.refs > 0)
  }

  /** The step moves shares between the thread and the shared state, losing none,
      and keeps what the step's own thread and every snapshot know. */
  predicate Good(a: Shared, p: Pc, b: Shared, q: Pc) {
    && Plus(Due(a), Of(q)) == Plus(Due(b), Of(p))
    && Flags(b) && ThreadInv(b, q) && Earlier(a.w, b.w)
  }

  lemma IdleClones(a: Shared, c: nat)
    requires Local(a, Idle) && c == 0
    ensures var o := DoIdle(a, c); Good(a, Idle, o.sh, o.pc)
  {
  }

  lemma IdleWakes(a: Shared, c: nat)
    requires Local(a, Idle) && c == 1
    ensures var o := DoIdle(a, c); Good(a, Idle, o.sh, o.pc)
  {
  }

  lemma IdleKeepsOrDrops(a: Shared, c: nat)
    requires Flags(a) && 2 <= c <= 3
    ensures var o := DoIdle(a, c); Good(a, Idle, o.sh, o.pc)
  {
  }

  lemma IdleRuns(a: Shared, c: nat)
    requires Local(a, Idle) && 4 <= c <= 6
    ensures var o := DoIdle(a, c); Good(a, Idle, o.sh, o.pc)
  {
  }

  lemma IdlePolls(a: Shared, c: nat)
    requires Local(a, Idle) && c == 7
    ensures var o := DoIdle(a, c); Good(a, Idle, o.sh, o.pc)
  {
  }

  lemma IdleGives(a: Shared, c: nat)
    requires Local(a, Idle) && c >= 8
    ensures var o := DoIdle(a, c); Good(a, Idle, o.sh, o.pc)
  {
  }

  lemma IdleStep(a: Shared, c: nat)
    requires Local(a, Idle)
    ensures var o := DoIdle(a, c); Good(a, Idle, o.sh, o.pc)
  {
    if c == 0 {
      IdleClones(a, c);
    } else if c == 1 {
      IdleWakes(a, c);
    } else if c <= 3 {
      IdleKeepsOrDrops(a, c);
    } else if c <= 6 {
      IdleRuns(a, c);
    } else if c == 7 {
      IdlePolls(a, c);
    } else {
      IdleGives(a, c);
    }
  }

  lemma WakerStepStartWake(a: Shared, p: WakerPc, c: nat)
    requires Local(a, OnWaker(p)) && p.Wake?
    ensures var o := DoWaker(a, p, c); Good(a, OnWaker(p), o.sh, o.pc)
  {
  }

  lemma WakerStepStartWakeLoop(a: Shared, p: WakerPc, c: nat)
    requires Local(a, OnWaker(p)) && p.WakeLoop?
    ensures var o := DoWaker(a, p, c); Good(a, OnWaker(p), o.sh, o.pc)
  {
  }

  lemma WakerStepStartWbr(a: Shared, p: WakerPc, c: nat)
    requires Local(a, OnWaker(p)) && p.Wbr?
    ensures var o := DoWaker(a, p, c); Good(a, OnWaker(p), o.sh, o.pc)
  {
  }

  lemma WakerStepStart(a: Shared, p: WakerPc, c: nat)
    requires Local(a, OnWaker(p)) && (p.Wake? || p.WakeLoop? || p.Wbr?)
    ensures var o := DoWaker(a, p, c); Good(a, OnWaker(p), o.sh, o.pc)
  {
    if p.Wake? {
      WakerStepStartWake(a, p, c);
    } else if p.WakeLoop? {
      WakerStepStartWakeLoop(a, p, c);
    } else {
      WakerStepStartWbr(a, p, c);
    }
  }

  lemma WakerStepLoop(a: Shared, p: WakerPc, c: nat)
    requires Local(a, OnWaker(p)) && p.WbrLoop?
    ensures var o := DoWaker(a, p, c); Good(a, OnWaker(p), o.sh, o.pc)
  {
  }

  lemma WakerStepCallWbrCall(a: Shared, p: WakerPc, c: nat)
    requires Local(a, OnWaker(p)) && p.WbrCall?
    ensures var o := DoWaker(a, p, c); Good(a, OnWaker(p), o.sh, o.pc)
  {
  }

  lemma WakerStepCallWbrReturn(a: Shared, p: WakerPc, c: nat)
    requires Local(a, OnWaker(p)) && p.WbrReturn?
    ensures var o := DoWaker(a, p, c); Good(a, OnWaker(p), o.sh, o.pc)
  {
  }

  lemma WakerStepCallLastWaker(a: Shared, p: WakerPc, c: nat)
    requires Local(a, OnWaker(p)) && p.LastWaker?
    ensures var o := DoWaker(a, p, c); Good(a, OnWaker(p), o.sh, o.pc)
  {
  }

  lemma WakerStepCall(a: Shared, p: WakerPc, c: nat)
    requires Local(a, OnWaker(p)) && (p.WbrCall? || p.WbrReturn? || p.LastWaker?)
    ensures var o := DoWaker(a, p, c); Good(a, OnWaker(p), o.sh, o.pc)
  {
    if p.WbrCall? {
      WakerStepCallWbrCall(a, p, c);
    } else if p.WbrReturn? {
      WakerStepCallWbrReturn(a, p, c);
    } else {
      WakerStepCallLastWaker(a, p, c);
    }
  }

  lemma WakerStepDrop(a: Shared, p: WakerPc, c: nat)
    requires Local(a, OnWaker(p)) && p.DropWaker?
    ensures var o := DoWaker(a, p, c); Good(a, OnWaker(p), o.sh, o.pc)
  {
  }

  lemma ReleaseStepRef(a: Shared, p: ReleasePc)
    requires Local(a, OnRelease(p)) && p.DropRef?
    ensures var o := DoRelease(a, p); Good(a, OnRelease(p), o.sh, o.pc)
  {
  }

  lemma ReleaseStepFree(a: Shared, p: ReleasePc)
    requires Local(a, OnRelease(p)) && p.Destroy?
    ensures var o := DoRelease(a, p); Good(a, OnRelease(p), o.sh, o.pc)
  {
  }

  lemma ReleaseStepScheduleSched(a: Shared, p: ReleasePc)
    requires Local(a, OnRelease(p)) && p.Sched?
    ensures var o := DoRelease(a, p); Good(a, OnRelease(p), o.sh, o.pc)
  {
  }

  lemma ReleaseStepScheduleSchedCall(a: Shared, p: ReleasePc)
    requires Local(a, OnRelease(p)) && p.SchedCall?
    ensures var o := DoRelease(a, p); Good(a, OnRelease(p), o.sh, o.pc)
  {
  }

  lemma ReleaseStepScheduleSchedReturn(a: Shared, p: ReleasePc)
    requires Local(a, OnRelease(p)) && p.SchedReturn?
    ensures var o := DoRelease(a, p); Good(a, OnRelease(p), o.sh, o.pc)
  {
  }

  lemma ReleaseStepSchedule(a: Shared, p: ReleasePc)
    requires Local(a, OnRelease(p)) && (p.Sched? || p.SchedCall? || p.SchedReturn?)
    ensures var o := DoRelease(a, p); Good(a, OnRelease(p), o.sh, o.pc)
  {
    if p.Sched? {
      ReleaseStepScheduleSched(a, p);
    } else if p.SchedCall? {
      ReleaseStepScheduleSchedCall(a, p);
    } else {
      ReleaseStepScheduleSchedReturn(a, p);
    }
  }

  lemma RunStepEnterRun(a: Shared, p: RunPc, c: nat)
    requires Local(a, OnRun(p)) && p.Run?
    ensures var o := DoRun(a, p, c); Good(a, OnRun(p), o.sh, o.pc)
  {
  }

  lemma RunStepEnterRunLoop(a: Shared, p: RunPc, c: nat)
    requires Local(a, OnRun(p)) && p.RunLoop?
    ensures var o := DoRun(a, p, c); Good(a, OnRun(p), o.sh, o.pc)
  {
  }

  lemma RunStepEnterRunClosed(a: Shared, p: RunPc, c: nat)
    requires Local(a, OnRun(p)) && p.RunClosed?
    ensures var o := DoRun(a, p, c); Good(a, OnRun(p), o.sh, o.pc)
  {
  }

  lemma RunStepEnter(a: Shared, p: RunPc, c: nat)
    requires Local(a, OnRun(p)) && (p.Run? || p.RunLoop? || p.RunClosed?)
    ensures var o := DoRun(a, p, c); Good(a, OnRun(p), o.sh, o.pc)
  {
    if p.Run? {
      RunStepEnterRun(a, p, c);
    } else if p.RunLoop? {
      RunStepEnterRunLoop(a, p, c);
    } else {
      RunStepEnterRunClosed(a, p, c);
    }
  }

  lemma RunStepPollRunClosedClear(a: Shared, p: RunPc, c: nat)
    requires Local(a, OnRun(p)) && p.RunClosedClear?
    ensures var o := DoRun(a, p, c); Good(a, OnRun(p), o.sh, o.pc)
  {
  }

  lemma RunStepPollPoll(a: Shared, p: RunPc, c: nat)
    requires Local(a, OnRun(p)) && p.Poll?
    ensures var o := DoRun(a, p, c); Good(a, OnRun(p), o.sh, o.pc)
  {
  }

  lemma RunStepPoll(a: Shared, p: RunPc, c: nat)
    requires Local(a, OnRun(p)) && (p.RunClosedClear? || p.Poll?)
    ensures var o := DoRun(a, p, c); Good(a, OnRun(p), o.sh, o.pc)
  {
    if p.RunClosedClear? {
      RunStepPollRunClosedClear(a, p, c);
    } else {
      RunStepPollPoll(a, p, c);
    }
  }

  lemma FinishStepValueReadyDrop(a: Shared, p: FinishPc, c: nat)
    requires Local(a, OnFinish(p)) && p.ReadyDrop?
    ensures var o := DoFinish(a, p, c); Good(a, OnFinish(p), o.sh, o.pc)
  {
  }

  lemma FinishStepValueReadyWrite(a: Shared, p: FinishPc, c: nat)
    requires Local(a, OnFinish(p)) && p.ReadyWrite?
    ensures var o := DoFinish(a, p, c); Good(a, OnFinish(p), o.sh, o.pc)
  {
  }

  lemma FinishStepValueReadyDropOut(a: Shared, p: FinishPc, c: nat)
    requires Local(a, OnFinish(p)) && p.ReadyDropOut?
    ensures var o := DoFinish(a, p, c); Good(a, OnFinish(p), o.sh, o.pc)
  {
  }

  lemma FinishStepValue(a: Shared, p: FinishPc, c: nat)
    requires Local(a, OnFinish(p)) && (p.ReadyDrop? || p.ReadyWrite? || p.ReadyDropOut?)
    ensures var o := DoFinish(a, p, c); Good(a, OnFinish(p), o.sh, o.pc)
  {
    if p.ReadyDrop? {
      FinishStepValueReadyDrop(a, p, c);
    } else if p.ReadyWrite? {
      FinishStepValueReadyWrite(a, p, c);
    } else {
      FinishStepValueReadyDropOut(a, p, c);
    }
  }

  lemma FinishStepReady(a: Shared, p: FinishPc, c: nat)
    requires Local(a, OnFinish(p)) && p.ReadyLoop?
    ensures var o := DoFinish(a, p, c); Good(a, OnFinish(p), o.sh, o.pc)
  {
  }

  lemma FinishStepPending(a: Shared, p: FinishPc, c: nat)
    requires Local(a, OnFinish(p)) && p.PendLoop?
    ensures var o := DoFinish(a, p, c); Good(a, OnFinish(p), o.sh, o.pc)
  {
  }

  lemma PanicStepLoad(a: Shared, p: PanicPc, c: nat)
    requires Local(a, OnPanic(p)) && p.Guard?
    ensures var o := DoPanic(a, p, c); Good(a, OnPanic(p), o.sh, o.pc)
  {
  }

  lemma PanicStepLoop(a: Shared, p: PanicPc, c: nat)
    requires Local(a, OnPanic(p)) && p.GuardLoop?
    ensures var o := DoPanic(a, p, c); Good(a, OnPanic(p), o.sh, o.pc)
  {
  }

  lemma PanicStepClosed(a: Shared, p: PanicPc, c: nat)
    requires Local(a, OnPanic(p)) && p.GuardClosed?
    ensures var o := DoPanic(a, p, c); Good(a, OnPanic(p), o.sh, o.pc)
  {
  }

  lemma PanicStepClear(a: Shared, p: PanicPc, c: nat)
    requires Local(a, OnPanic(p)) && p.GuardClear?
    ensures var o := DoPanic(a, p, c); Good(a, OnPanic(p), o.sh, o.pc)
  {
  }

  lemma PanicStepDrop(a: Shared, p: PanicPc, c: nat)
    requires Local(a, OnPanic(p)) && p.GuardDrop?
    ensures var o := DoPanic(a, p, c); Good(a, OnPanic(p), o.sh, o.pc)
  {
  }

  lemma PanicStep(a: Shared, p: PanicPc, c: nat)
    requires Local(a, OnPanic(p))
    ensures var o := DoPanic(a, p, c); Good(a, OnPanic(p), o.sh, o.pc)
  {
    if p.Guard? {
      PanicStepLoad(a, p, c);
    } else if p.GuardLoop? {
      PanicStepLoop(a, p, c);
    } else if p.GuardClosed? {
      PanicStepClosed(a, p, c);
    } else if p.GuardClear? {
      PanicStepClear(a, p, c);
    } else {
      PanicStepDrop(a, p, c);
    }
  }

  lemma DropStepLoad(a: Shared, p: DropPc, c: nat)
    requires Local(a, OnDrop(p)) && p.Rd?
    ensures var o := DoDrop(a, p, c); Good(a, OnDrop(p), o.sh, o.pc)
  {
  }

  lemma DropStepLoop(a: Shared, p: DropPc, c: nat)
    requires Local(a, OnDrop(p)) && p.RdLoop?
    ensures var o := DoDrop(a, p, c); Good(a, OnDrop(p), o.sh, o.pc)
  {
  }

  lemma DropStepDrop(a: Shared, p: DropPc, c: nat)
    requires Local(a, OnDrop(p)) && p.RdDrop?
    ensures var o := DoDrop(a, p, c); Good(a, OnDrop(p), o.sh, o.pc)
  {
  }

  lemma DropStepClear(a: Shared, p: DropPc, c: nat)
    requires Local(a, OnDrop(p)) && p.RdClear?
    ensures var o := DoDrop(a, p, c); Good(a, OnDrop(p), o.sh, o.pc)
  {
  }

  lemma DropStep(a: Shared, p: DropPc, c: nat)
    requires Local(a, OnDrop(p))
    ensures var o := DoDrop(a, p, c); Good(a, OnDrop(p), o.sh, o.pc)
  {
    if p.Rd? {
      DropStepLoad(a, p, c);
    } else if p.RdLoop? {
      DropStepLoop(a, p, c);
    } else if p.RdDrop? {
      DropStepDrop(a, p, c);
    } else {
      DropStepClear(a, p, c);
    }
  }

  lemma TakeStepCellTake(a: Shared, p: TakePc, c: nat)
    requires Flags(a) && p.Take?
    ensures var o := DoTake(a, p, c); Good(a, OnTake(p), o.sh, o.pc)
  {
  }

  lemma TakeStepCellTakeCell(a: Shared, p: TakePc, c: nat)
    requires Flags(a) && p.TakeCell?
    ensures var o := DoTake(a, p, c); Good(a, OnTake(p), o.sh, o.pc)
  {
  }

  lemma TakeStepCellWakeLast(a: Shared, p: TakePc, c: nat)
    requires Flags(a) && p.WakeLast?
    ensures var o := DoTake(a, p, c); Good(a, OnTake(p), o.sh, o.pc)
  {
  }

  lemma TakeStepCell(a: Shared, p: TakePc, c: nat)
    requires Local(a, OnTake(p)) && (p.Take? || p.TakeCell? || p.WakeLast?)
    ensures var o := DoTake(a, p, c); Good(a, OnTake(p), o.sh, o.pc)
  {
    if p.Take? {
      TakeStepCellTake(a, p, c);
    } else if p.TakeCell? {
      TakeStepCellTakeCell(a, p, c);
    } else {
      TakeStepCellWakeLast(a, p, c);
    }
  }

  lemma TakeStepClear(a: Shared, p: TakePc, c: nat)
    requires Flags(a) && p.TakeClear?
    ensures var o := DoTake(a, p, c); Good(a, OnTake(p), o.sh, o.pc)
  {
  }

  lemma TakeStepWake(a: Shared, p: TakePc, c: nat)
    requires Flags(a) && p.WakeIt?
    ensures var o := DoTake(a, p, c); Good(a, OnTake(p), o.sh, o.pc)
  {
  }

  lemma RegisterStepOpenReg(a: Shared, p: RegisterPc, c: nat)
    requires Flags(a) && p.Reg?
    ensures var o := DoRegister(a, p, c); Good(a, OnRegister(p), o.sh, o.pc)
  {
  }

  lemma RegisterStepOpenReg1(a: Shared, p: RegisterPc, c: nat)
    requires Flags(a) && p.Reg1?
    ensures var o := DoRegister(a, p, c); Good(a, OnRegister(p), o.sh, o.pc)
  {
  }

  lemma RegisterStepOpenRegSelf(a: Shared, p: RegisterPc, c: nat)
    requires Flags(a) && p.RegSelf?
    ensures var o := DoRegister(a, p, c); Good(a, OnRegister(p), o.sh, o.pc)
  {
  }

  lemma RegisterStepOpenRegStore(a: Shared, p: RegisterPc, c: nat)
    requires Flags(a) && p.RegStore?
    ensures var o := DoRegister(a, p, c); Good(a, OnRegister(p), o.sh, o.pc)
  {
  }

  lemma RegisterStepOpenRegWake(a: Shared, p: RegisterPc, c: nat)
    requires Flags(a) && p.RegWake?
    ensures var o := DoRegister(a, p, c); Good(a, OnRegister(p), o.sh, o.pc)
  {
  }

  lemma RegisterStepOpen(a: Shared, p: RegisterPc, c: nat)
    requires Local(a, OnRegister(p)) && (p.Reg? || p.Reg1? || p.RegSelf? || p.RegStore? || p.RegWake?)
    ensures var o := DoRegister(a, p, c); Good(a, OnRegister(p), o.sh, o.pc)
  {
    if p.Reg? {
      RegisterStepOpenReg(a, p, c);
    } else if p.Reg1? {
      RegisterStepOpenReg1(a, p, c);
    } else if p.RegSelf? {
      RegisterStepOpenRegSelf(a, p, c);
    } else if p.RegStore? {
      RegisterStepOpenRegStore(a, p, c);
    } else {
      RegisterStepOpenRegWake(a, p, c);
    }
  }

  lemma RegisterStepSettle(a: Shared, p: RegisterPc, c: nat)
    requires Local(a, OnRegister(p)) && p.Reg2?
    ensures var o := DoRegister(a, p, c); Good(a, OnRegister(p), o.sh, o.pc)
  {
  }

  lemma HandleStepLoop(a: Shared, p: HandlePc)
    requires Flags(a) && p.PtLoop?
    ensures var o := DoHandle(a, p); Good(a, OnHandle(p), o.sh, o.pc)
  {
  }

  lemma HandleStepRestPt(a: Shared, p: HandlePc)
    requires Flags(a) && p.Pt?
    ensures var o := DoHandle(a, p); Good(a, OnHandle(p), o.sh, o.pc)
  {
  }

  lemma HandleStepRestPtCheck(a: Shared, p: HandlePc)
    requires Flags(a) && p.PtCheck?
    ensures var o := DoHandle(a, p); Good(a, OnHandle(p), o.sh, o.pc)
  {
  }

  lemma HandleStepRestPtOut(a: Shared, p: HandlePc)
    requires Local(a, OnHandle(p)) && p.PtOut?
    ensures var o := DoHandle(a, p); Good(a, OnHandle(p), o.sh, o.pc)
  {
  }

  lemma HandleStepRestHandleBack(a: Shared, p: HandlePc)
    requires Local(a, OnHandle(p)) && p.HandleBack?
    ensures var o := DoHandle(a, p); Good(a, OnHandle(p), o.sh, o.pc)
  {
  }

  lemma HandleStepRest(a: Shared, p: HandlePc)
    requires Local(a, OnHandle(p)) && (p.Pt? || p.PtCheck? || p.PtOut? || p.HandleBack?)
    ensures var o := DoHandle(a, p); Good(a, OnHandle(p), o.sh, o.pc)
  {
    if p.Pt? {
      HandleStepRestPt(a, p);
    } else if p.PtCheck? {
      HandleStepRestPtCheck(a, p);
    } else if p.PtOut? {
      HandleStepRestPtOut(a, p);
    } else {
      HandleStepRestHandleBack(a, p);
    }
  }

  lemma GiveStepStartSc(a: Shared, p: GivePc, c: nat)
    requires Local(a, OnGive(p)) && p.Sc?
    ensures var o := DoGive(a, p, c); Good(a, OnGive(p), o.sh, o.pc)
  {
  }

  lemma GiveStepStartSd(a: Shared, p: GivePc, c: nat)
    requires Local(a, OnGive(p)) && p.Sd?
    ensures var o := DoGive(a, p, c); Good(a, OnGive(p), o.sh, o.pc)
  {
  }

  lemma GiveStepStartSdRead(a: Shared, p: GivePc, c: nat)
    requires Local(a, OnGive(p)) && p.SdRead?
    ensures var o := DoGive(a, p, c); Good(a, OnGive(p), o.sh, o.pc)
  {
  }

  lemma GiveStepStart(a: Shared, p: GivePc, c: nat)
    requires Local(a, OnGive(p)) && (p.Sc? || p.Sd? || p.SdRead?)
    ensures var o := DoGive(a, p, c); Good(a, OnGive(p), o.sh, o.pc)
  {
    if p.Sc? {
      GiveStepStartSc(a, p, c);
    } else if p.Sd? {
      GiveStepStartSd(a, p, c);
    } else {
      GiveStepStartSdRead(a, p, c);
    }
  }

  lemma GiveStepCancel(a: Shared, p: GivePc, c: nat)
    requires Local(a, OnGive(p)) && p.ScLoop?
    ensures var o := DoGive(a, p, c); Good(a, OnGive(p), o.sh, o.pc)
  {
  }

  lemma GiveStepDetach(a: Shared, p: GivePc, c: nat)
    requires Local(a, OnGive(p)) && p.SdLoop?
    ensures var o := DoGive(a, p, c); Good(a, OnGive(p), o.sh, o.pc)
  {
  }

  lemma LocalStep(a: Shared, p: Pc, c: nat)
    requires Local(a, p)
    ensures var o := Do(a, p, c); Good(a, p, o.sh, o.pc)
  {
    match p
    case Idle => IdleStep(a, c);
    case OnWaker(x) =>
      if x.Wake? || x.WakeLoop? || x.Wbr? {
        WakerStepStart(a, x, c);
      } else if x.WbrLoop? {
        WakerStepLoop(a, x, c);
      } else if x.WbrCall? || x.WbrReturn? || x.LastWaker? {
        WakerStepCall(a, x, c);
      } else {
        WakerStepDrop(a, x, c);
      }
    case OnRelease(x) =>
      if x.DropRef? {
        ReleaseStepRef(a, x);
      } else if x.Destroy? {
        ReleaseStepFree(a, x);
      } else {
        ReleaseStepSchedule(a, x);
      }
    case OnRun(x) =>
      if x.Run? || x.RunLoop? || x.RunClosed? {
        RunStepEnter(a, x, c);
      } else {
        RunStepPoll(a, x, c);
      }
    case OnFinish(x) =>
      if x.ReadyDrop? || x.ReadyWrite? || x.ReadyDropOut? {
        FinishStepValue(a, x, c);
      } else if x.ReadyLoop? {
        FinishStepReady(a, x, c);
      } else {
        FinishStepPending(a, x, c);
      }
    case OnPanic(x) => PanicStep(a, x, c);
    case OnDrop(x) => DropStep(a, x, c);
    case OnTake(x) =>
      if x.Take? || x.TakeCell? || x.WakeLast? {
        TakeStepCell(a, x, c);
      } else if x.TakeClear? {
        TakeStepClear(a, x, c);
      } else {
        TakeStepWake(a, x, c);
      }
    case OnRegister(x) =>
      if x.Reg? || x.Reg1? || x.RegSelf? || x.RegStore? || x.RegWake? {
        RegisterStepOpen(a, x, c);
      } else {
        RegisterStepSettle(a, x, c);
      }
    case OnHandle(x) =>
      if x.PtLoop? {
        HandleStepLoop(a, x);
      } else {
        HandleStepRest(a, x);
      }
    case OnGive(x) =>
      if x.Sc? || x.Sd? || x.SdRead? {
        GiveStepStart(a, x, c);
      } else if x.ScLoop? {
        GiveStepCancel(a, x, c);
      } else {
        GiveStepDetach(a, x, c);
      }
  }

  // ---------------------------------------------------------------- all threads

  lemma CoversAll(pcs: seq<Pc>)
    ensures Sum(pcs, Holder) + Sum(pcs, Running) <= Sum(pcs, Refs)
  {
    SumCovers(pcs, Refs, Holder, Running);
  }

  lemma LocalView(s: State, i: nat)
    requires Inv(s) && i < |s.pcs|
    ensures Local(s.sh, s.pcs[i])
  {
    CoversAll(s.pcs);
    SumAt(s.pcs, i, Refs);
    SumAt(s.pcs, i, Holder);
    SumAt(s.pcs, i, Running);
    SumAt(s.pcs, i, Handle);
    SumAt(s.pcs, i, Burial);
    SumAt(s.pcs, i, Future);
    SumAt(s.pcs, i, Emptied);
    SumAt(s.pcs, i, Output);
  }

  lemma SharesMove(s: State, i: nat, q: Pc, b: Shared)
    requires Balanced(s) && i < |s.pcs|
    requires Plus(Due(s.sh), Of(q)) == Plus(Due(b), Of(s.pcs[i]))
    ensures Balanced(State(b, s.pcs[i := q]))
  {
    SumUpdate(s.pcs, i, q, Refs);
    SumUpdate(s.pcs, i, q, Holder);
    SumUpdate(s.pcs, i, q, Running);
    SumUpdate(s.pcs, i, q, Handle);
    SumUpdate(s.pcs, i, q, Burial);
    SumUpdate(s.pcs, i, q, Future);
    SumUpdate(s.pcs, i, q, Emptied);
    SumUpdate(s.pcs, i, q, Output);
  }

  /** A thread without a share does not touch the word. */
  lemma Bystander(a: Shared, p: Pc, c: nat)
    requires a.wakers == 0 && a.runnables == 0 && a.handles == 0
    requires Of(p).refs == 0 && Of(p).handle == 0 && Of(p).burial == 0
    ensures Do(a, p, c).sh.w == a.w
  {
  }

  /** While one thread decides the fate of an unreferenced task, no other thread
      has a share in it. */
  lemma Alone(s: State, j: nat, i: nat)
    requires Inv(s) && i < |s.pcs| && j < |s.pcs| && i != j && Of(s.pcs[j]).burial == 1
    ensures s.sh.wakers == 0 && s.sh.runnables == 0 && s.sh.handles == 0
    ensures Of(s.pcs[i]).refs == 0 && Of(s.pcs[i]).handle == 0 && Of(s.pcs[i]).burial == 0
  {
    SumTwo(s.pcs, j, i, Burial);
    SumAt(s.pcs, i, Refs);
    SumAt(s.pcs, i, Handle);
    assert Burial(s.pcs[j]) == 1;
  }

  lemma OthersKeep(s: State, i: nat, c: nat, j: nat)
    requires Inv(s) && i < |s.pcs| && j < |s.pcs| && i != j
    requires Earlier(s.sh.w, Do(s.sh, s.pcs[i], c).sh.w)
    ensures ThreadInv(Do(s.sh, s.pcs[i], c).sh, s.pcs[j])
  {
    assert ThreadInv(s.sh, s.pcs[j]);
    if s.pcs[j].OnWaker? && s.pcs[j].waker.LastWaker? {
      Alone(s, j, i);
      Bystander(s.sh, s.pcs[i], c);
    }
    Stable(s.sh, Do(s.sh, s.pcs[i], c).sh, s.pcs[j]);
  }

  lemma Stable(a: Shared, b: Shared, p: Pc)
    requires ThreadInv(a, p) && Earlier(a.w, b.w)
    requires p.OnWaker? && p.waker.LastWaker? ==> b.w == a.w
    ensures ThreadInv(b, p)
  {
  }

  lemma StepKeeps(s: State, i: nat, c: nat)
    requires Inv(s) && i < |s.pcs|
    ensures Inv(After(s, i, c))
  {
    LocalView(s, i);
    LocalStep(s.sh, s.pcs[i], c);
    var o := Do(s.sh, s.pcs[i], c);
    SharesMove(s, i, o.pc, o.sh);
    var t := After(s, i, c);
    forall j | 0 <= j < |t.pcs| ensures ThreadInv(t.sh, t.pcs[j]) {
      if j != i {
        OthersKeep(s, i, c, j);
      }
    }
  }

  lemma InitHolds(s: State)
    requires Init(s)
    ensures Inv(s)
  {
    SumZero(s.pcs, Refs);
    SumZero(s.pcs, Holder);
    SumZero(s.pcs, Running);
    SumZero(s.pcs, Handle);
    SumZero(s.pcs, Burial);
    SumZero(s.pcs, Future);
    SumZero(s.pcs, Emptied);
    SumZero(s.pcs, Output);
  }

  lemma {:induction false} RunKeeps(s: State, moves: Schedule)
    requires Inv(s)
    ensures Inv(Execute(s, moves))
    decreases |moves|
  {
    if moves != [] {
      if moves[0].0 < |s.pcs| {
        StepKeeps(s, moves[0].0, moves[0].1);
      }
      RunKeeps(Move(s, moves[0]), moves[1..]);
    }
  }

  /** The invariant holds in every state of every run, for any number of threads. */
  lemma Reachable(s: State, moves: Schedule)
    requires Init(s)
    ensures Inv(Execute(s, moves))
  {
    InitHolds(s);
    RunKeeps(s, moves);
  }

  // ---------------------------------------------------------------- what runs guarantee

  /** The wakers a thread holds, the temporary one inside `schedule` included. */
  function Wakers(p: Pc): nat {
    match p
    case OnWaker(Wake) => 1
    case OnWaker(WakeLoop(_)) => 1
    case OnWaker(Wbr(k)) => Bit(!k.InPoll?)
    case OnWaker(WbrLoop(_, k)) => Bit(!k.InPoll?)
    case OnWaker(WbrCall(k)) => Bit(!k.InPoll?)
    case OnWaker(WbrReturn(k)) => Bit(!k.InPoll?)
    case OnWaker(DropWaker(_)) => 1
    case OnRelease(SchedCall(_, tmp)) => Bit(tmp.On?)
    case OnRelease(SchedReturn(_, tmp)) => Bit(tmp.On?)
    case _ => 0
  }

  /** A former runner that has cleared its flags but not yet dropped its reference. */
  function Retirees(p: Pc): nat {
    match p
    case OnRelease(DropRef(_)) => 1
    case OnFinish(ReadyDropOut(_)) => 1
    case OnPanic(GuardDrop(_)) => 1
    case OnTake(Take(c)) => Bit(c == RunTail || c == DropTail)
    case OnTake(TakeCell(c)) => Bit(c == RunTail || c == DropTail)
    case OnTake(TakeClear(c, _)) => Bit(c == RunTail || c == DropTail)
    case OnTake(WakeIt(_, c)) => Bit(c == RunTail || c == DropTail)
    case _ => 0
  }

  lemma RefsOf(p: Pc)
    ensures Refs(p) == Wakers(p) + Holder(p) + Running(p) + Retirees(p)
  {
  }

  lemma {:induction false} RefsSplit(pcs: seq<Pc>)
    ensures Sum(pcs, Refs) == Sum(pcs, Wakers) + Sum(pcs, Holder) + Sum(pcs, Running) + Sum(pcs, Retirees)
  {
    if pcs != [] {
      RefsOf(pcs[0]);
      RefsSplit(pcs[1..]);
    }
  }

  /** The reference count is exactly the live wakers plus the one Runnable or runner
      plus runners that are about to drop their reference; there is a Runnable or
      runner exactly while the word is scheduled or running, and never two. */
  lemma ReferenceCount(s: State, moves: Schedule)
    requires Init(s)
    ensures var t := Execute(s, moves);
            && t.sh.w.refs == t.sh.wakers + Sum(t.pcs, Wakers)
                              + t.sh.runnables + Sum(t.pcs, Holder) + Sum(t.pcs, Running)
                              + Sum(t.pcs, Retirees)
            && t.sh.runnables + Sum(t.pcs, Holder) + Sum(t.pcs, Running)
               == Bit(t.sh.w.scheduled.On? || t.sh.w.running.On?)
            && t.sh.handles + Sum(t.pcs, Handle) == Bit(t.sh.w.task.On?)
  {
    Reachable(s, moves);
    RefsSplit(Execute(s, moves).pcs);
  }

  predicate GivesUpReference(p: Pc) {
    || (p.OnWaker? && p.waker.DropWaker?)
    || (p.OnRelease? && p.release.DropRef?)
  }

  /** Inside `Future::poll`, including its calls to `wake_by_ref`. */
  predicate Polls(p: Pc) {
    match p
    case OnRun(Poll(_)) => true
    case OnWaker(Wbr(InPoll(_))) => true
    case OnWaker(WbrLoop(_, InPoll(_))) => true
    case OnWaker(WbrReturn(InPoll(_))) => true
    case _ => false
  }

  predicate Frees(p: Pc) { p.OnRelease? && p.release.Destroy? }

  /** The allocation is freed at most once; while it is freed nothing owns any part
      of the task any more; and a thread about to touch it finds it allocated and,
      if it gives up a reference, finds one to give up. */
  lemma FreedOnceAndLast(s: State, moves: Schedule, i: nat)
    requires Init(s) && i < |Execute(s, moves).pcs|
    ensures var t := Execute(s, moves);
            && t.sh.destroys <= 1
            && (t.sh.destroys == 1 ==>
                  && t.sh.wakers == 0 && t.sh.runnables == 0 && t.sh.handles == 0
                  && Of(t.pcs[i]).refs == 0 && Of(t.pcs[i]).handle == 0 && Of(t.pcs[i]).burial == 0)
            && (GivesUpReference(t.pcs[i]) ==> t.sh.w.refs > 0 && t.sh.destroys == 0)
  {
    Reachable(s, moves);
    var t := Execute(s, moves);
    LocalView(t, i);
    SumAt(t.pcs, i, Refs);
    SumAt(t.pcs, i, Handle);
    SumAt(t.pcs, i, Burial);
  }

  /** The future is alive whenever it is polled, by one thread only, and it is
      dropped at most once. */
  lemma PolledAloneAndAlive(s: State, moves: Schedule, i: nat, j: nat)
    requires Init(s)
    requires i < |Execute(s, moves).pcs| && j < |Execute(s, moves).pcs|
    ensures var t := Execute(s, moves);
            && t.sh.futureDrops <= 1
            && (Polls(t.pcs[i]) ==>
                  t.sh.stage == HasFuture && t.sh.futureDrops == 0 && t.sh.w.running.On?)
            && (Polls(t.pcs[i]) && Polls(t.pcs[j]) ==> i == j)
  {
    Reachable(s, moves);
    var t := Execute(s, moves);
    LocalView(t, i);
    if i != j {
      SumTwo(t.pcs, i, j, Running);
    }
  }

  lemma {:induction false} NoStakesLeft(pcs: seq<Pc>)
    requires Sum(pcs, Refs) == 0 && Sum(pcs, Handle) == 0
    ensures Sum(pcs, Future) == 0 && Sum(pcs, Output) == 0
  {
    if pcs != [] {
      NoStakesLeft(pcs[1..]);
    }
  }

  /** When the allocation is about to be freed, a completed or closed task has had
      its future dropped, and an output that was written has been taken or dropped
      exactly once. The one future that outlives its task is that of a detached task
      still pending when its last reference goes: it is leaked, exactly then. */
  lemma DisposedBeforeFree(s: State, moves: Schedule, i: nat)
    requires Init(s) && i < |Execute(s, moves).pcs|
    requires Frees(Execute(s, moves).pcs[i])
    ensures var t := Execute(s, moves);
            && (t.sh.stage == HasFuture <==> !t.sh.w.completed.On? && !t.sh.w.closed.On?)
            && t.sh.futureDrops == (if t.sh.w.completed.On? || t.sh.w.closed.On? then 1 else 0)
            && t.sh.outputTakes == t.sh.outputWrites <= 1
            && t.sh.stage != HasOutput
  {
    Reachable(s, moves);
    var t := Execute(s, moves);
    SumAt(t.pcs, i, Burial);
    assert Burial(t.pcs[i]) == 1;
    CoversAll(t.pcs);
    NoStakesLeft(t.pcs);
  }

  /** The output is written at most once and never taken more often than written. */
  lemma OutputOnce(s: State, moves: Schedule)
    requires Init(s)
    ensures var t := Execute(s, moves);
            t.sh.outputTakes <= t.sh.outputWrites <= 1
            && (t.sh.outputWrites == 1 ==> t.sh.futureDrops == 1)
  {
    Reachable(s, moves);
  }
}
