/** The task state machine of runtime/task: one header word raced on by wakers,
    the Runnable or its runner, and the Task handle. Every step performs one
    atomic operation on the word, or one access to the storage it guards. */
module TaskModel {
  import opened Tally

  /** The bits of `Header::state`; `refs` counts REFERENCE units. */
  datatype Word = Word(
    scheduled: Flag, running: Flag, completed: Flag, closed: Flag,
    task: Flag, awaiter: Flag, registering: Flag, notifying: Flag, refs: nat)

  /** The union of future and output. `Vacant` lies between the drop of a finished
      future and the write of its output, `Gone` after the last value has left. */
  datatype Stage = HasFuture | Vacant | HasOutput | Gone

  /** Everything threads share. `wakers`, `runnables` and `handles` are the owned
      values currently at rest in user data. The last five fields are history:
      the waker registered by the last finished `register`, whether the
      `poll_task` that registered it returned Pending, the wakers woken so far
      (one identity per `poll_task` call), and whether the panic guard skipped the
      awaiter because it tested a word loaded before the awaiter registered. */
  datatype Shared = Shared(
    w: Word, cell: Option<nat>, closure: Flag,
    wakers: nat, runnables: nat, handles: nat,
    stage: Stage, futureDrops: nat, outputWrites: nat, outputTakes: nat, destroys: nat,
    polls: nat, waiting: Option<nat>, parked: Flag, woken: set<nat>, stale: Flag)

  /** What a thread does after `schedule`, `drop_waker`, `drop_ref` or `destroy`. */
  datatype Then = Leave | CancelNotify(aw: Flag) | WakeAwaiter(aid: Option<nat>)

  /** Who called `Header::take`: the end of `run`, `Drop for Runnable`,
      `set_canceled`, or one of the two ready branches of `poll_task`. */
  datatype Caller = RunTail | DropTail | CancelTail | NoneTail | OutTail

  /** What a caller of `wake_by_ref` holds: a waker it keeps, a waker it drops next
      (`wake` of a task whose schedule function has state), or the running future. */
  datatype Waking = KeepWaker | ThenDrop | InPoll(s: Word)

  // RawTask::wake, wake_by_ref, drop_waker
  datatype WakerPc =
    | Wake
    | WakeLoop(s: Word)
    | Wbr(wk: Waking)
    | WbrLoop(s: Word, wk: Waking)
    | WbrCall(wk: Waking)
    | WbrReturn(wk: Waking)
    | DropWaker(k: Then)
    | LastWaker(k: Then)

  // RawTask::drop_ref, destroy, schedule
  datatype ReleasePc =
    | DropRef(k: Then)
    | Destroy(k: Then)
    | Sched(k: Then)
    | SchedCall(k: Then, tmp: Flag)
    | SchedReturn(k: Then, tmp: Flag)

  // RawTask::run up to the end of the poll
  datatype RunPc =
    | Run
    | RunLoop(s: Word)
    | RunClosed
    | RunClosedClear
    | Poll(s: Word)

  // RawTask::run after the poll
  datatype FinishPc =
    | ReadyDrop(s: Word)
    | ReadyWrite(s: Word)
    | ReadyLoop(s: Word)
    | ReadyDropOut(aw: Flag)
    | PendLoop(s: Word, dropped: Flag)

  // the panic guard of run
  datatype PanicPc =
    | Guard
    | GuardLoop(s: Word)
    | GuardClosed(s: Word)
    | GuardClear(s: Word)
    | GuardDrop(aw: Flag)

  // Drop for Runnable
  datatype DropPc =
    | Rd
    | RdLoop(s: Word)
    | RdDrop
    | RdClear

  // Header::take and the wake-ups that follow it
  datatype TakePc =
    | Take(c: Caller)
    | TakeCell(c: Caller)
    | TakeClear(c: Caller, got: Option<nat>)
    | WakeIt(id: nat, c: Caller)
    | WakeLast(id: nat)

  // Header::register; `cl` tells its two call sites apart
  datatype RegisterPc =
    | Reg(id: nat, cl: Flag)
    | Reg1(s: Word, id: nat, cl: Flag)
    | RegSelf(id: nat, cl: Flag)
    | RegStore(s: Word, id: nat, cl: Flag)
    | Reg2(s: Word, id: nat, cl: Flag, got: Option<nat>)
    | RegWake(gid: nat, id: nat, cl: Flag)

  /** What `poll_task` answers: Pending, Ready(None) or Ready(Some(output)). */
  datatype PollAnswer = NotPolled | IsPending | IsNone | IsOutput

  // Task::poll_task
  datatype HandlePc =
    | Pt(id: nat)
    | PtLoop(s: Word, id: nat)
    | PtCheck(id: nat, cl: Flag)
    | PtOut
    | HandleBack(answer: PollAnswer)

  // Task::set_canceled and Task::set_detached
  datatype GivePc =
    | Sc
    | ScLoop(s: Word)
    | Sd
    | SdLoop(s: Word)
    | SdRead(s: Word)

  datatype Pc =
    | Idle
    | OnWaker(waker: WakerPc)
    | OnRelease(release: ReleasePc)
    | OnRun(run: RunPc)
    | OnFinish(finish: FinishPc)
    | OnPanic(panic: PanicPc)
    | OnDrop(drop: DropPc)
    | OnTake(take: TakePc)
    | OnRegister(register: RegisterPc)
    | OnHandle(handle: HandlePc)
    | OnGive(give: GivePc)

  datatype State = State(sh: Shared, pcs: seq<Pc>)

  function Resume(k: Then): Pc {
    match k
    case Leave => Idle
    case CancelNotify(aw) => if aw.On? then OnTake(Take(CancelTail)) else OnHandle(HandleBack(NotPolled))
    case WakeAwaiter(None) => Idle
    case WakeAwaiter(Some(id)) => OnTake(WakeLast(id))
  }

  /** Where a caller of `take` continues once nothing is left to wake. */
  function Done(c: Caller): Pc {
    match c
    case RunTail => OnRelease(DropRef(WakeAwaiter(None)))
    case DropTail => OnRelease(DropRef(Leave))
    case CancelTail => OnHandle(HandleBack(NotPolled))
    case NoneTail => OnHandle(HandleBack(IsNone))
    case OutTail => OnHandle(PtOut)
  }

  function WakingDone(wk: Waking): Pc {
    match wk
    case KeepWaker => Idle
    case ThenDrop => OnWaker(DropWaker(Leave))
    case InPoll(s) => OnRun(Poll(s))
  }

  function Fresh(): Word { Word(On, Off, Off, Off, On, Off, Off, Off, 1) }

  /** The word `SCHEDULED | CLOSED | REFERENCE` stored by the last waker or detach. */
  function Buried(): Word { Word(On, Off, Off, On, Off, Off, Off, Off, 1) }

  function AddRef(w: Word): Word { w.(refs := w.refs + 1) }

  /** The outcome of a step. A step takes a choice `c`, which resolves what the
      protocol leaves open: which operation an idle thread starts, how a poll ends,
      whether a weak compare-exchange fails although the word is unchanged. */
  datatype Out = Out(sh: Shared, pc: Pc)

  // ---------------------------------------------------------------- idle threads

  /** An idle thread picks up a value at rest: it clones a waker, or starts to use
      up a waker, the Runnable or the Task handle. */
  function DoIdle(a: Shared, c: nat): Out {
    if c == 0 && (a.wakers > 0 || a.runnables > 0) then
      Out(a.(w := AddRef(a.w), wakers := a.wakers + 1), Idle)
    else if 1 <= c <= 3 && a.wakers > 0 then
      Out(a.(wakers := a.wakers - 1),
          OnWaker(if c == 1 then (if a.closure.On? then Wbr(ThenDrop) else Wake)
                  else if c == 2 then Wbr(KeepWaker) else DropWaker(Leave)))
    else if 4 <= c <= 6 && a.runnables > 0 then
      Out(a.(runnables := a.runnables - 1),
          if c == 4 then OnRun(Run) else if c == 5 then OnDrop(Rd) else OnRelease(Sched(Leave)))
    else if c == 7 && a.handles > 0 then
      Out(a.(handles := a.handles - 1, polls := a.polls + 1, waiting := None, parked := Off),
          OnHandle(Pt(a.polls)))
    else if c == 8 && a.handles > 0 then
      Out(a.(handles := a.handles - 1), OnGive(Sc))
    else if c == 9 && a.handles > 0 then
      Out(a.(handles := a.handles - 1, waiting := None, parked := Off), OnGive(Sd))
    else Out(a, Idle)
  }

  // ---------------------------------------------------------------- wakers

  function DoWaker(a: Shared, p: WakerPc, c: nat): Out {
    match p
    case Wake => Out(a, OnWaker(WakeLoop(a.w)))
    case WakeLoop(s) =>
      if s.completed.On? || s.closed.On? then Out(a, OnWaker(DropWaker(Leave)))
      else if c == 0 || a.w != s then Out(a, OnWaker(WakeLoop(a.w)))
      else if a.w.scheduled.On? then Out(a, OnWaker(DropWaker(Leave)))
      else Out(a.(w := a.w.(scheduled := On)),
               if a.w.running.On? then OnWaker(DropWaker(Leave)) else OnRelease(Sched(Leave)))
    case Wbr(k) => Out(a, OnWaker(WbrLoop(a.w, k)))
    case WbrLoop(s, k) =>
      if s.completed.On? || s.closed.On? then Out(a, OnWaker(WbrReturn(k)))
      else if c == 0 || a.w != s then Out(a, OnWaker(WbrLoop(a.w, k)))
      else if a.w.scheduled.On? then Out(a, OnWaker(WbrReturn(k)))
      else if a.w.running.On? then Out(a.(w := a.w.(scheduled := On)), OnWaker(WbrReturn(k)))
      else Out(a.(w := AddRef(a.w.(scheduled := On))), OnWaker(WbrCall(k)))
    case WbrCall(k) => Out(a.(runnables := a.runnables + 1), OnWaker(WbrReturn(k)))
    case WbrReturn(k) => Out(if k == KeepWaker then a.(wakers := a.wakers + 1) else a, WakingDone(k))
    case DropWaker(k) =>
      if a.w.refs == 0 then Out(a, OnWaker(p))
      else Out(a.(w := a.w.(refs := a.w.refs - 1)),
               if a.w.refs > 1 || a.w.task.On? then Resume(k)
               else if !a.w.completed.On? && !a.w.closed.On? then OnWaker(LastWaker(k))
               else OnRelease(Destroy(k)))
    case LastWaker(k) => Out(a.(w := Buried()), OnRelease(Sched(k)))
  }

  function DoRelease(a: Shared, p: ReleasePc): Out {
    match p
    case DropRef(k) =>
      if a.w.refs == 0 then Out(a, OnRelease(p))
      else Out(a.(w := a.w.(refs := a.w.refs - 1)),
               if a.w.refs > 1 || a.w.task.On? then Resume(k) else OnRelease(Destroy(k)))
    case Destroy(k) => Out(a.(destroys := a.destroys + 1), Resume(k))
    case Sched(k) =>
      Out(if a.closure.On? then a.(w := AddRef(a.w)) else a, OnRelease(SchedCall(k, a.closure)))
    case SchedCall(k, tmp) => Out(a.(runnables := a.runnables + 1), OnRelease(SchedReturn(k, tmp)))
    case SchedReturn(k, tmp) => Out(a, if tmp.On? then OnWaker(DropWaker(k)) else Resume(k))
  }

  // ---------------------------------------------------------------- the runner

  function DropFuture(a: Shared, next: Stage): Shared {
    a.(stage := next, futureDrops := a.futureDrops + 1)
  }

  function TakeOutput(a: Shared): Shared {
    a.(stage := Gone, outputTakes := a.outputTakes + 1)
  }

  /** The tail of `run` once flags are cleared: take the awaiter if the word showed one. */
  function Tail(aw: Flag): Pc {
    if aw.On? then OnTake(Take(RunTail)) else OnRelease(DropRef(WakeAwaiter(None)))
  }

  /** A poll may clone its waker, wake itself, return Ready or Pending, or panic. */
  function DoRun(a: Shared, p: RunPc, c: nat): Out {
    match p
    case Run => Out(a, OnRun(RunLoop(a.w)))
    case RunLoop(s) =>
      if s.closed.On? then Out(a, OnRun(RunClosed))
      else if c == 0 || a.w != s then Out(a, OnRun(RunLoop(a.w)))
      else var v := a.w.(scheduled := Off, running := On);
           Out(a.(w := v), OnRun(Poll(v)))
    case RunClosed => Out(DropFuture(a, Gone), OnRun(RunClosedClear))
    case RunClosedClear => Out(a.(w := a.w.(scheduled := Off)), Tail(a.w.awaiter))
    case Poll(s) =>
      if c == 0 then Out(a.(w := AddRef(a.w), wakers := a.wakers + 1), OnRun(p))
      else if c == 1 then Out(a, OnWaker(Wbr(InPoll(s))))
      else if c == 2 then Out(a, OnFinish(ReadyDrop(s)))
      else if c == 3 then Out(a, OnFinish(PendLoop(s, Off)))
      else Out(a, OnPanic(Guard))
  }

  function DoFinish(a: Shared, p: FinishPc, c: nat): Out {
    match p
    case ReadyDrop(s) => Out(DropFuture(a, Vacant), OnFinish(ReadyWrite(s)))
    case ReadyWrite(s) =>
      Out(a.(stage := HasOutput, outputWrites := a.outputWrites + 1), OnFinish(ReadyLoop(s)))
    case ReadyLoop(s) =>
      if c == 0 || a.w != s then Out(a, OnFinish(ReadyLoop(a.w)))
      else Out(a.(w := a.w.(running := Off, scheduled := Off, completed := On,
                            closed := Flagged(a.w.closed.On? || !a.w.task.On?))),
               if !a.w.task.On? || a.w.closed.On? then OnFinish(ReadyDropOut(a.w.awaiter))
               else Tail(a.w.awaiter))
    case ReadyDropOut(aw) => Out(TakeOutput(a), Tail(aw))
    case PendLoop(s, dropped) =>
      if s.closed.On? && !dropped.On? then Out(DropFuture(a, Gone), OnFinish(PendLoop(s, On)))
      else if c == 0 || a.w != s then Out(a, OnFinish(PendLoop(a.w, dropped)))
      else if s.closed.On? then
        Out(a.(w := a.w.(running := Off, scheduled := Off)), Tail(a.w.awaiter))
      else
        Out(a.(w := a.w.(running := Off)),
            OnRelease(if a.w.scheduled.On? then Sched(Leave) else DropRef(Leave)))
  }

  function DoPanic(a: Shared, p: PanicPc, c: nat): Out {
    match p
    case Guard => Out(a, OnPanic(GuardLoop(a.w)))
    case GuardLoop(s) =>
      if s.closed.On? then Out(a, OnPanic(GuardClosed(s)))
      else if c == 0 || a.w != s then Out(a, OnPanic(GuardLoop(a.w)))
      else Out(a.(w := a.w.(running := Off, scheduled := Off, closed := On)),
               OnPanic(GuardDrop(a.w.awaiter)))
    case GuardClosed(s) => Out(DropFuture(a, Gone), OnPanic(GuardClear(s)))
    case GuardClear(s) =>
      Out(a.(w := a.w.(running := Off, scheduled := Off),
             stale := Flagged(a.stale.On? || (a.w.awaiter.On? && !s.awaiter.On?))),
          Tail(s.awaiter))
    case GuardDrop(aw) => Out(DropFuture(a, Gone), Tail(aw))
  }

  function DoDrop(a: Shared, p: DropPc, c: nat): Out {
    match p
    case Rd => Out(a, OnDrop(RdLoop(a.w)))
    case RdLoop(s) =>
      if s.completed.On? || s.closed.On? then Out(a, OnDrop(RdDrop))
      else if c == 0 || a.w != s then Out(a, OnDrop(RdLoop(a.w)))
      else Out(a.(w := a.w.(closed := On)), OnDrop(RdDrop))
    case RdDrop => Out(DropFuture(a, Gone), OnDrop(RdClear))
    case RdClear =>
      Out(a.(w := a.w.(scheduled := Off)),
          if a.w.awaiter.On? then OnTake(Take(DropTail)) else OnRelease(DropRef(Leave)))
  }

  // ---------------------------------------------------------------- awaiter

  /** `will_wake` decides, in the two calls that pass the current waker, whether a
      waker found in the cell is woken or merely dropped. */
  function DoTake(a: Shared, p: TakePc, c: nat): Out {
    match p
    case Take(k) =>
      Out(a.(w := a.w.(notifying := On)),
          if !a.w.notifying.On? && !a.w.registering.On? then OnTake(TakeCell(k)) else Done(k))
    case TakeCell(k) => Out(a.(cell := None), OnTake(TakeClear(k, a.cell)))
    case TakeClear(k, got) =>
      Out(a.(w := a.w.(notifying := Off, awaiter := Off)),
          if got.None? then Done(k)
          else if k == RunTail then OnRelease(DropRef(WakeAwaiter(got)))
          else if c == 0 && (k == NoneTail || k == OutTail) then Done(k)
          else OnTake(WakeIt(got.value, k)))
    case WakeIt(id, k) => Out(a.(woken := a.woken + {id}), Done(k))
    case WakeLast(id) => Out(a.(woken := a.woken + {id}), Idle)
  }

  function DoRegister(a: Shared, p: RegisterPc, c: nat): Out {
    match p
    case Reg(id, cl) => Out(a, OnRegister(Reg1(a.w, id, cl)))
    case Reg1(s, id, cl) =>
      if s.notifying.On? then Out(a, OnRegister(RegSelf(id, cl)))
      else if c == 0 || a.w != s then Out(a, OnRegister(Reg1(a.w, id, cl)))
      else var v := a.w.(registering := On);
           Out(a.(w := v), OnRegister(RegStore(v, id, cl)))
    case RegSelf(id, cl) =>
      Out(a.(woken := a.woken + {id}, waiting := Some(id)), OnHandle(PtCheck(id, cl)))
    case RegStore(s, id, cl) => Out(a.(cell := Some(id)), OnRegister(Reg2(s, id, cl, None)))
    case Reg2(s, id, cl, got) =>
      if s.notifying.On? && a.cell.Some? then Out(a.(cell := None), OnRegister(Reg2(s, id, cl, a.cell)))
      else if c == 0 || a.w != s then Out(a, OnRegister(Reg2(a.w, id, cl, got)))
      else if got.None? then
        Out(a.(w := a.w.(notifying := Off, registering := Off, awaiter := On), waiting := Some(id)),
            OnHandle(PtCheck(id, cl)))
      else
        Out(a.(w := a.w.(notifying := Off, registering := Off, awaiter := Off)),
            OnRegister(RegWake(got.value, id, cl)))
    case RegWake(gid, id, cl) =>
      Out(a.(woken := a.woken + {gid}, waiting := Some(id)), OnHandle(PtCheck(id, cl)))
  }

  // ---------------------------------------------------------------- the handle

  /** The test of `poll_task` after `register`: nothing decided yet, so return Pending. */
  predicate Undecided(w: Word, cl: Flag) {
    if cl.On? then w.scheduled.On? || w.running.On? else !w.closed.On? && !w.completed.On?
  }

  function DoHandle(a: Shared, p: HandlePc): Out {
    match p
    case Pt(id) => Out(a, OnHandle(PtLoop(a.w, id)))
    case PtLoop(s, id) =>
      if s.closed.On? then
        Out(a, if s.scheduled.On? || s.running.On? then OnRegister(Reg(id, On)) else OnTake(Take(NoneTail)))
      else if !s.completed.On? then Out(a, OnRegister(Reg(id, Off)))
      else if a.w != s then Out(a, OnHandle(PtLoop(a.w, id)))
      else Out(a.(w := a.w.(closed := On)), if a.w.awaiter.On? then OnTake(Take(OutTail)) else OnHandle(PtOut))
    case PtCheck(id, cl) =>
      if Undecided(a.w, cl) then Out(a.(parked := On), OnHandle(HandleBack(IsPending)))
      else Out(a.(waiting := None), if cl.On? then OnTake(Take(NoneTail)) else OnHandle(PtLoop(a.w, id)))
    case PtOut => Out(TakeOutput(a), OnHandle(HandleBack(IsOutput)))
    case HandleBack(_) => Out(a.(handles := a.handles + 1), Idle)
  }

  function DoGive(a: Shared, p: GivePc, c: nat): Out {
    match p
    case Sc => Out(a, OnGive(ScLoop(a.w)))
    case ScLoop(s) =>
      if s.completed.On? || s.closed.On? then Out(a, OnHandle(HandleBack(NotPolled)))
      else if c == 0 || a.w != s then Out(a, OnGive(ScLoop(a.w)))
      else if !a.w.scheduled.On? && !a.w.running.On? then
        Out(a.(w := AddRef(a.w.(scheduled := On, closed := On))),
            OnRelease(Sched(CancelNotify(a.w.awaiter))))
      else Out(a.(w := a.w.(closed := On)), Resume(CancelNotify(a.w.awaiter)))
    case Sd =>
      if c == 0 || a.w != Fresh() then Out(a, OnGive(SdLoop(a.w)))
      else Out(a.(w := Fresh().(task := Off)), Idle)
    case SdLoop(s) =>
      if c == 0 || a.w != s then Out(a, OnGive(SdLoop(a.w)))
      else if a.w.completed.On? && !a.w.closed.On? then
        Out(a.(w := a.w.(closed := On)), OnGive(SdRead(a.w.(closed := On))))
      else
        Out(a.(w := if a.w.refs == 0 && !a.w.closed.On? then Buried() else a.w.(task := Off)),
            if a.w.refs > 0 then Idle
            else OnRelease(if a.w.closed.On? then Destroy(Leave) else Sched(Leave)))
    case SdRead(s) => Out(TakeOutput(a), OnGive(SdLoop(s)))
  }

  // ---------------------------------------------------------------- runs

  function Do(a: Shared, p: Pc, c: nat): Out {
    match p
    case Idle => DoIdle(a, c)
    case OnWaker(x) => DoWaker(a, x, c)
    case OnRelease(x) => DoRelease(a, x)
    case OnRun(x) => DoRun(a, x, c)
    case OnFinish(x) => DoFinish(a, x, c)
    case OnPanic(x) => DoPanic(a, x, c)
    case OnDrop(x) => DoDrop(a, x, c)
    case OnTake(x) => DoTake(a, x, c)
    case OnRegister(x) => DoRegister(a, x, c)
    case OnHandle(x) => DoHandle(a, x)
    case OnGive(x) => DoGive(a, x, c)
  }

  /** Thread `i` takes one step. */
  function After(s: State, i: nat, c: nat): State
    requires i < |s.pcs|
  {
    var o := Do(s.sh, s.pcs[i], c);
    State(o.sh, s.pcs[i := o.pc])
  }

  /** `spawn_unchecked` has returned a Runnable and a Task; `closure` is
      `size_of::<S>() > 0`; any number of threads may take part. */
  predicate Init(s: State) {
    && s.sh == Shared(Fresh(), None, s.sh.closure, 0, 1, 1, HasFuture, 0, 0, 0, 0, 0, None, Off, {}, Off)
    && forall i :: 0 <= i < |s.pcs| ==> s.pcs[i] == Idle
  }

  /** A schedule: who moves next, and with which choice. */
  type Schedule = seq<(nat, nat)>

  /** One entry of a schedule; an entry that names no thread is skipped. */
  function Move(s: State, move: (nat, nat)): State {
    if move.0 < |s.pcs| then After(s, move.0, move.1) else s
  }

  /** The state a schedule leads to. */
  function Execute(s: State, moves: Schedule): State
    decreases |moves|
  {
    if moves == [] then s else Execute(Move(s, moves[0]), moves[1..])
  }
}
