/** Exactly when a wake-up of the Task handle is lost: the panic guard of `run` decides
    by a word it loaded earlier, and a registration in between goes unnoticed. */
module TaskStale {
  import opened Tally
  import opened TaskModel
  import opened TaskLifecycle
  import opened TaskAwaiter

  // ---------------------------------------------------------------- program points

  /** A guard that has seen the task closed and no awaiter, and will not look again. */
  predicate Blind(p: Pc) {
    match p
    case OnPanic(GuardLoop(s)) => s.closed.On? && !s.awaiter.On?
    case OnPanic(GuardClosed(s)) => !s.awaiter.On?
    case OnPanic(GuardClear(s)) => !s.awaiter.On?
    case _ => false
  }

  /** A cancelling thread on its way to the awaiter cell, or at it. */
  predicate Cancels(p: Pc) {
    match p
    case OnTake(Take(c)) => c == CancelTail
    case OnTake(TakeCell(c)) => c == CancelTail
    case OnTake(TakeClear(c, _)) => c == CancelTail
    case _ => false
  }

  /** What a thread does once it has scheduled the task or given up a reference. */
  function Next(p: Pc): Then {
    match p
    case OnWaker(DropWaker(k)) => k
    case OnWaker(LastWaker(k)) => k
    case OnRelease(x) => x.k
    case _ => Leave
  }

  /** A cancelling thread that schedules the task before it notifies. */
  predicate CancelsLater(p: Pc) { Next(p).CancelNotify? }

  /** Points past the end of the task, from which an awaiter may be taken. */
  predicate AfterEnd(p: Pc) {
    match p
    case OnTake(Take(c)) => c != CancelTail
    case OnTake(TakeCell(c)) => c != CancelTail
    case OnTake(TakeClear(c, _)) => c != CancelTail
    case OnTake(WakeIt(_, c)) => c != CancelTail
    case OnTake(WakeLast(_)) => true
    case OnRelease(_) => Next(p).WakeAwaiter?
    case OnFinish(x) => x.ReadyDropOut?
    case OnPanic(x) => x.GuardDrop?
    case OnRegister(x) => x.RegSelf? || x.RegWake?
    case _ => false
  }

  /** The identity of the `poll_task` call a handle is in. */
  function PollOf(p: Pc): Option<nat> {
    match p
    case OnRegister(x) => Some(x.id)
    case OnHandle(Pt(id)) => Some(id)
    case OnHandle(PtLoop(_, id)) => Some(id)
    case OnHandle(PtCheck(id, _)) => Some(id)
    case _ => None
  }

  // ---------------------------------------------------------------- the invariant

  /** Before the end, an awaiter bit without notifier means an unwoken waker in the cell;
      a guard can have been blind only at the end, and then the waker stays there. */
  predicate Known(a: Shared) {
    && (forall x :: x in a.woken ==> x < a.polls)
    && (a.stale.On? ==> Decided(a.w))
    && (a.w.registering.On? && a.w.notifying.On? ==> Decided(a.w))
    && (!Decided(a.w) && a.waiting.Some? && a.w.awaiter.On? && !a.w.notifying.On? ==>
          a.cell == a.waiting && a.waiting.value !in a.woken)
    && (a.stale.On? && a.parked.On? ==> a.waiting.Some? && a.cell == a.waiting && a.waiting.value !in a.woken)
  }

  predicate Carried(a: Shared, p: Pc) {
    match p
    case OnTake(TakeClear(_, Some(x))) => x < a.polls
    case OnTake(WakeIt(x, _)) => x < a.polls
    case OnTake(WakeLast(x)) => x < a.polls
    case OnRelease(_) => Next(p).WakeAwaiter? && Next(p).aid.Some? ==> Next(p).aid.value < a.polls
    case OnRegister(RegWake(gid, _, _)) => gid < a.polls
    case OnRegister(Reg2(_, _, _, Some(x))) => x < a.polls
    case _ => true
  }

  predicate Loaded(w: Word, p: Pc) {
    match p
    case OnRegister(Reg1(s, _, _)) => s.notifying.On? ==> Decided(w)
    case OnRegister(RegStore(s, _, _)) => !s.notifying.On?
    case OnRegister(Reg2(s, _, _, got)) => s.notifying.On? || got.Some? ==> Decided(w)
    case OnHandle(PtLoop(s, _)) => (Decided(s) ==> Decided(w)) && (s.closed.On? ==> w.closed.On?)
    case _ => true
  }

  predicate Knows(a: Shared, p: Pc) {
    && (AfterEnd(p) ==> Decided(a.w))
    && (Cancels(p) ==> Decided(a.w) || a.w.awaiter.On?)
    && (p.OnTake? && p.take.WakeIt? && p.take.c == CancelTail ==> Decided(a.w) || !a.w.awaiter.On?)
    && (Next(p).WakeAwaiter? ==> p.OnRelease? && (p.release.DropRef? || p.release.Destroy?))
    && (CancelsLater(p) ==> a.w.closed.On? && !a.w.running.On?)
    && (CancelsLater(p) && Next(p).aw.On? ==> Decided(a.w) || a.w.awaiter.On?)
    && (PollOf(p).Some? ==> PollOf(p).value < a.polls && (Decided(a.w) || PollOf(p).value !in a.woken))
    && (p.OnRegister? && p.register.cl.On? ==> a.w.closed.On?)
    && (p.OnHandle? && p.handle.PtCheck? && p.handle.cl.On? ==> a.w.closed.On?)
    && Carried(a, p) && Loaded(a.w, p) && (a.cell.Some? ==> a.cell.value < a.polls)
  }

  /** Whoever could still bring the waker `id` out of the cell or wake it. */
  predicate Stirs(p: Pc, id: nat) {
    WillTake(p) || Carries(p, id) || CancelsLater(p)
  }

  ghost predicate StaleInv(s: State) {
    && WaitInv(s) && Known(s.sh)
    && (forall i :: 0 <= i < |s.pcs| ==> Knows(s.sh, s.pcs[i]))
    && (forall i, j :: 0 <= i < |s.pcs| && 0 <= j < |s.pcs| ==> !(Blind(s.pcs[i]) && Cancels(s.pcs[j])))
    && (s.sh.stale.On? && s.sh.parked.On? ==>
          forall i :: 0 <= i < |s.pcs| ==> !Stirs(s.pcs[i], s.sh.waiting.value))
  }

  // ---------------------------------------------------------------- one thread's view

  /** What the invariant says to a thread at `p`. */
  predicate Sees(a: Shared, p: Pc) {
    && View(a, p) && Known(a) && Knows(a, p)
    && (a.w.notifying.On? && !a.w.registering.On? && Handle(p) == 1 && Notifier(p) == 0 ==> Decided(a.w))
    && (a.w.notifying.On? && !a.w.registering.On? && Blind(p) ==> Decided(a.w))
    && (a.stale.On? && a.parked.On? ==> !Stirs(p, a.waiting.value))
  }

  /** What a step leaves to the others. */
  predicate Leaves(a: Shared, p: Pc, b: Shared) {
    && (Decided(a.w) ==> Decided(b.w)) && (a.w.closed.On? ==> b.w.closed.On?) && a.polls <= b.polls
    && (a.w.closed.On? && !a.w.running.On? ==> !b.w.running.On?)
    && (b.woken != a.woken ==> Decided(b.w) || Handle(p) == 1)
    && (b.w.awaiter != a.w.awaiter ==> Decided(b.w) || Handle(p) == 1 || !a.w.task.On?)
    && (b.cell.Some? ==> b.cell.value < b.polls)
  }

  predicate Keeps(a: Shared, p: Pc, o: Out) {
    Known(o.sh) && Knows(o.sh, o.pc) && Leaves(a, p, o.sh)
  }

  /** A step that leaves the awaiter, its bits and the handle's history alone. */
  predicate Calm(a: Shared, b: Shared) {
    && b.cell == a.cell && b.waiting == a.waiting && b.parked == a.parked && b.woken == a.woken
    && b.polls == a.polls && b.stale == a.stale
    && b.w.awaiter == a.w.awaiter && b.w.registering == a.w.registering && b.w.notifying == a.w.notifying
    && (Decided(a.w) ==> Decided(b.w)) && (a.w.closed.On? ==> b.w.closed.On?)
    && (a.w.closed.On? && !a.w.running.On? ==> !b.w.running.On?)
  }

  lemma CalmKeeps(a: Shared, p: Pc, o: Out)
    requires Known(a) && Knows(a, p) && Calm(a, o.sh) && Knows(o.sh, o.pc)
    ensures Keeps(a, p, o)
  {
  }

  /** What a calm step needs to know. */
  predicate Ready(a: Shared, p: Pc) {
    && Knows(a, p) && Flags(a) && ThreadInv(a, p)
    && (Holder(p) == 1 ==> a.w.scheduled.On? && !a.w.running.On?)
    && (Running(p) == 1 ==> a.w.running.On?)
  }

  predicate CalmStep(a: Shared, o: Out) { Calm(a, o.sh) && Knows(o.sh, o.pc) }

  lemma WakerCalm(a: Shared, p: WakerPc, c: nat)
    requires Ready(a, OnWaker(p)) && (p.Wake? || p.WakeLoop? || p.Wbr? || p.WbrLoop?)
    ensures CalmStep(a, DoWaker(a, p, c))
  {
  }

  lemma WakerReturnCalm(a: Shared, p: WakerPc, c: nat)
    requires Ready(a, OnWaker(p)) && (p.WbrCall? || p.WbrReturn? || p.DropWaker?)
    ensures CalmStep(a, DoWaker(a, p, c))
  {
  }

  lemma ReleaseCalm(a: Shared, p: ReleasePc)
    requires Ready(a, OnRelease(p))
    ensures CalmStep(a, DoRelease(a, p))
  {
  }

  lemma RunCalm(a: Shared, p: RunPc, c: nat)
    requires Ready(a, OnRun(p))
    ensures CalmStep(a, DoRun(a, p, c))
  {
  }

  lemma FinishCalmReady(a: Shared, p: FinishPc, c: nat)
    requires Ready(a, OnFinish(p)) && p.ReadyLoop?
    ensures CalmStep(a, DoFinish(a, p, c))
  {
  }

  lemma FinishCalmPending(a: Shared, p: FinishPc, c: nat)
    requires Ready(a, OnFinish(p)) && p.PendLoop?
    ensures CalmStep(a, DoFinish(a, p, c))
  {
  }

  lemma FinishCalmValue(a: Shared, p: FinishPc, c: nat)
    requires Ready(a, OnFinish(p)) && (p.ReadyDrop? || p.ReadyWrite? || p.ReadyDropOut?)
    ensures CalmStep(a, DoFinish(a, p, c))
  {
  }

  lemma FinishCalm(a: Shared, p: FinishPc, c: nat)
    requires Ready(a, OnFinish(p))
    ensures CalmStep(a, DoFinish(a, p, c))
  {
    if p.ReadyLoop? {
      FinishCalmReady(a, p, c);
    } else if p.PendLoop? {
      FinishCalmPending(a, p, c);
    } else {
      FinishCalmValue(a, p, c);
    }
  }

  lemma PanicCalm(a: Shared, p: PanicPc, c: nat)
    requires Ready(a, OnPanic(p)) && !p.GuardClear?
    ensures CalmStep(a, DoPanic(a, p, c))
  {
  }

  lemma DropCalm(a: Shared, p: DropPc, c: nat)
    requires Ready(a, OnDrop(p))
    ensures CalmStep(a, DoDrop(a, p, c))
  {
  }

  lemma CancelCalmLoad(a: Shared, p: GivePc, c: nat)
    requires Ready(a, OnGive(p)) && p.Sc?
    ensures CalmStep(a, DoGive(a, p, c))
  {
  }

  lemma CancelCalmLoop(a: Shared, p: GivePc, c: nat)
    requires (a.cell.Some? ==> a.cell.value < a.polls) && p.ScLoop?
    ensures CalmStep(a, DoGive(a, p, c))
  {
  }

  lemma CancelCalm(a: Shared, p: GivePc, c: nat)
    requires Ready(a, OnGive(p)) && (p.Sc? || p.ScLoop?)
    ensures CalmStep(a, DoGive(a, p, c))
  {
    if p.Sc? {
      CancelCalmLoad(a, p, c);
    } else {
      CancelCalmLoop(a, p, c);
    }
  }

  lemma DetachCalmTry(a: Shared, p: GivePc, c: nat)
    requires Ready(a, OnGive(p)) && p.Sd?
    ensures CalmStep(a, DoGive(a, p, c))
  {
  }

  lemma DetachCalmRead(a: Shared, p: GivePc, c: nat)
    requires Ready(a, OnGive(p)) && p.SdRead?
    ensures CalmStep(a, DoGive(a, p, c))
  {
  }

  lemma DetachCalm(a: Shared, p: GivePc, c: nat)
    requires Ready(a, OnGive(p)) && (p.Sd? || p.SdRead?)
    ensures CalmStep(a, DoGive(a, p, c))
  {
    if p.Sd? {
      DetachCalmTry(a, p, c);
    } else {
      DetachCalmRead(a, p, c);
    }
  }

  lemma IdleCalm(a: Shared, c: nat)
    requires Ready(a, Idle) && c != 7 && c != 9
    ensures CalmStep(a, DoIdle(a, c))
  {
  }

  // ---------------------------------------------------------------- steps that matter

  lemma LastWakerKeeps(a: Shared, p: WakerPc, c: nat)
    requires Sees(a, OnWaker(p)) && p.LastWaker?
    ensures Keeps(a, OnWaker(p), DoWaker(a, p, c))
  {
  }

  /** The guard clears the flags: it misses a registration exactly if AWAITER is set by
      now and was not in its word; then an unwoken waker is in the cell. */
  lemma GuardKeeps(a: Shared, p: PanicPc, c: nat)
    requires Sees(a, OnPanic(p)) && p.GuardClear?
    ensures Keeps(a, OnPanic(p), DoPanic(a, p, c))
  {
  }

  lemma IdleKeeps(a: Shared, c: nat)
    requires Sees(a, Idle) && (c == 7 || c == 9)
    ensures Keeps(a, Idle, DoIdle(a, c))
  {
  }

  lemma TakeAnnounces(a: Shared, p: TakePc, c: nat)
    requires Sees(a, OnTake(p)) && p.Take?
    ensures Keeps(a, OnTake(p), DoTake(a, p, c))
  {
  }

  lemma TakeEmpties(a: Shared, p: TakePc, c: nat)
    requires Sees(a, OnTake(p)) && p.TakeCell?
    ensures Keeps(a, OnTake(p), DoTake(a, p, c))
  {
  }

  lemma TakeCloses(a: Shared, p: TakePc, c: nat)
    requires Sees(a, OnTake(p)) && p.TakeClear?
    ensures Keeps(a, OnTake(p), DoTake(a, p, c))
  {
  }

  lemma TakeWakes(a: Shared, p: TakePc, c: nat)
    requires Sees(a, OnTake(p)) && (p.WakeIt? || p.WakeLast?)
    ensures Keeps(a, OnTake(p), DoTake(a, p, c))
  {
  }

  lemma RegisterOpens(a: Shared, p: RegisterPc, c: nat)
    requires Sees(a, OnRegister(p)) && (p.Reg? || p.Reg1? || p.RegStore?)
    ensures Keeps(a, OnRegister(p), DoRegister(a, p, c))
  {
  }

  lemma RegisterSettles(a: Shared, p: RegisterPc, c: nat)
    requires Sees(a, OnRegister(p)) && p.Reg2?
    ensures Keeps(a, OnRegister(p), DoRegister(a, p, c))
  {
  }

  lemma RegisterWakes(a: Shared, p: RegisterPc, c: nat)
    requires Sees(a, OnRegister(p)) && (p.RegSelf? || p.RegWake?)
    ensures Keeps(a, OnRegister(p), DoRegister(a, p, c))
  {
  }

  lemma HandleKeepsLoop(a: Shared, p: HandlePc)
    requires Sees(a, OnHandle(p)) && p.PtLoop?
    ensures Keeps(a, OnHandle(p), DoHandle(a, p))
  {
  }

  lemma HandleKeepsCheck(a: Shared, p: HandlePc)
    requires Sees(a, OnHandle(p)) && p.PtCheck?
    ensures Keeps(a, OnHandle(p), DoHandle(a, p))
  {
  }

  lemma HandleKeepsRestLoad(a: Shared, p: HandlePc)
    requires Sees(a, OnHandle(p)) && p.Pt?
    ensures Keeps(a, OnHandle(p), DoHandle(a, p))
  {
  }

  lemma HandleKeepsRestOut(a: Shared, p: HandlePc)
    requires Sees(a, OnHandle(p)) && p.PtOut?
    ensures Keeps(a, OnHandle(p), DoHandle(a, p))
  {
  }

  lemma HandleKeepsRestBack(a: Shared, p: HandlePc)
    requires Sees(a, OnHandle(p)) && p.HandleBack?
    ensures Keeps(a, OnHandle(p), DoHandle(a, p))
  {
  }

  lemma HandleKeepsRest(a: Shared, p: HandlePc)
    requires Sees(a, OnHandle(p)) && (p.Pt? || p.PtOut? || p.HandleBack?)
    ensures Keeps(a, OnHandle(p), DoHandle(a, p))
  {
    if p.Pt? {
      HandleKeepsRestLoad(a, p);
    } else if p.PtOut? {
      HandleKeepsRestOut(a, p);
    } else {
      HandleKeepsRestBack(a, p);
    }
  }

  lemma HandleKeeps(a: Shared, p: HandlePc)
    requires Sees(a, OnHandle(p))
    ensures Keeps(a, OnHandle(p), DoHandle(a, p))
  {
    if p.PtLoop? {
      HandleKeepsLoop(a, p);
    } else if p.PtCheck? {
      HandleKeepsCheck(a, p);
    } else {
      HandleKeepsRest(a, p);
    }
  }

  lemma DetachEnds(a: Shared, p: GivePc, c: nat)
    requires Sees(a, OnGive(p)) && p.SdLoop?
    ensures Keeps(a, OnGive(p), DoGive(a, p, c))
  {
  }

  predicate IsCalm(p: Pc, c: nat) {
    match p
    case Idle => c != 7 && c != 9
    case OnWaker(x) => !x.LastWaker?
    case OnRelease(_) => true
    case OnRun(_) => true
    case OnFinish(_) => true
    case OnPanic(x) => !x.GuardClear?
    case OnDrop(_) => true
    case OnGive(x) => !x.SdLoop?
    case _ => false
  }

  lemma CalmOnes(a: Shared, p: Pc, c: nat)
    requires Ready(a, p) && IsCalm(p, c)
    ensures CalmStep(a, Do(a, p, c))
  {
    match p
    case Idle => IdleCalm(a, c);
    case OnWaker(x) =>
      if x.WbrCall? || x.WbrReturn? || x.DropWaker? {
        WakerReturnCalm(a, x, c);
      } else {
        WakerCalm(a, x, c);
      }
    case OnRelease(x) => ReleaseCalm(a, x);
    case OnRun(x) => RunCalm(a, x, c);
    case OnFinish(x) => FinishCalm(a, x, c);
    case OnPanic(x) => PanicCalm(a, x, c);
    case OnDrop(x) => DropCalm(a, x, c);
    case OnGive(x) =>
      if x.Sc? || x.ScLoop? {
        CancelCalm(a, x, c);
      } else {
        DetachCalm(a, x, c);
      }
  }

  lemma OtherOnes(a: Shared, p: Pc, c: nat)
    requires Sees(a, p) && !IsCalm(p, c)
    ensures Keeps(a, p, Do(a, p, c))
  {
    match p
    case Idle => IdleKeeps(a, c);
    case OnWaker(x) => LastWakerKeeps(a, x, c);
    case OnPanic(x) => GuardKeeps(a, x, c);
    case OnTake(x) =>
      if x.Take? {
        TakeAnnounces(a, x, c);
      } else if x.TakeCell? {
        TakeEmpties(a, x, c);
      } else if x.TakeClear? {
        TakeCloses(a, x, c);
      } else {
        TakeWakes(a, x, c);
      }
    case OnRegister(x) =>
      if x.Reg2? {
        RegisterSettles(a, x, c);
      } else if x.RegSelf? || x.RegWake? {
        RegisterWakes(a, x, c);
      } else {
        RegisterOpens(a, x, c);
      }
    case OnHandle(x) => HandleKeeps(a, x);
    case OnGive(x) => DetachEnds(a, x, c);
  }

  lemma StepKnows(a: Shared, p: Pc, c: nat)
    requires Sees(a, p)
    ensures Keeps(a, p, Do(a, p, c))
  {
    if IsCalm(p, c) {
      CalmOnes(a, p, c);
      CalmKeeps(a, p, Do(a, p, c));
    } else {
      OtherOnes(a, p, c);
    }
  }

  // ---------------------------------------------------------------- blind guards and cancellers

  /** A guard becomes blind by loading a word without awaiter while it runs. */
  lemma BlindArises(a: Shared, p: Pc, c: nat)
    requires ThreadInv(a, p) && (Running(p) == 1 ==> a.w.running.On?) && Flags(a)
    requires Blind(Do(a, p, c).pc) && !Blind(p)
    ensures !Decided(a.w) && !a.w.awaiter.On? && !Cancels(p)
  {
  }

  /** A thread comes to cancel by closing the task, or after it was scheduled for that. */
  lemma CancelArises(a: Shared, p: Pc, c: nat)
    requires Knows(a, p) && Cancels(Do(a, p, c).pc) && !Cancels(p)
    ensures !Blind(p) && (!a.w.closed.On? || !a.w.running.On?)
  {
  }

  lemma BlindHolds(a: Shared, p: Pc)
    requires ThreadInv(a, p) && (Running(p) == 1 ==> a.w.running.On?) && Blind(p)
    ensures a.w.closed.On? && a.w.running.On?
  {
  }

  /** Once a blind guard has abandoned a parked handle, nobody turns to its waker. */
  predicate LeavesLost(a: Shared, o: Out)
    requires a.waiting.Some?
  {
    o.sh.parked.On? ==> o.sh.waiting == a.waiting && !Stirs(o.pc, a.waiting.value)
  }

  /** The task is over: no runner, no Runnable, and the handle is not being polled. */
  predicate Over(a: Shared, p: Pc) {
    && a.waiting.Some? && Decided(a.w) && Flags(a) && !Stirs(p, a.waiting.value)
    && Holder(p) == 0 && Running(p) == 0 && !NotWaiting(p) && !(p.OnHandle? && p.handle.PtCheck?)
    && (Next(p).WakeAwaiter? ==> p.OnRelease? && (p.release.DropRef? || p.release.Destroy?))
  }

  lemma IsOver(a: Shared, p: Pc)
    requires Sees(a, p) && a.stale.On? && a.parked.On?
    ensures Over(a, p)
  {
  }

  lemma LostIdle(a: Shared, c: nat)
    requires Over(a, Idle)
    ensures LeavesLost(a, DoIdle(a, c))
  {
  }

  lemma LostWaker(a: Shared, p: WakerPc, c: nat)
    requires Over(a, OnWaker(p))
    ensures LeavesLost(a, DoWaker(a, p, c))
  {
  }

  lemma LostRelease(a: Shared, p: ReleasePc)
    requires Over(a, OnRelease(p))
    ensures LeavesLost(a, DoRelease(a, p))
  {
  }

  lemma LostTake(a: Shared, p: TakePc, c: nat)
    requires Over(a, OnTake(p))
    ensures LeavesLost(a, DoTake(a, p, c))
  {
  }

  lemma LostGive(a: Shared, p: GivePc, c: nat)
    requires Over(a, OnGive(p))
    ensures LeavesLost(a, DoGive(a, p, c))
  {
  }

  lemma LostRest(a: Shared, p: Pc, c: nat)
    requires Over(a, p) && (p.OnRun? || p.OnFinish? || p.OnPanic? || p.OnDrop? || p.OnRegister? || p.OnHandle?)
    ensures LeavesLost(a, Do(a, p, c))
  {
  }

  lemma NobodyStirs(a: Shared, p: Pc, c: nat)
    requires Sees(a, p) && a.stale.On? && a.parked.On?
    ensures LeavesLost(a, Do(a, p, c))
  {
    IsOver(a, p);
    match p
    case Idle => LostIdle(a, c);
    case OnWaker(x) => LostWaker(a, x, c);
    case OnRelease(x) => LostRelease(a, x);
    case OnTake(x) => LostTake(a, x, c);
    case OnGive(x) => LostGive(a, x, c);
    case _ => LostRest(a, p, c);
  }

  // ---------------------------------------------------------------- all threads

  lemma SeesOf(s: State, i: nat)
    requires StaleInv(s) && i < |s.pcs|
    ensures Sees(s.sh, s.pcs[i])
  {
    ViewOf(s, i);
    var p := s.pcs[i];
    if s.sh.w.notifying.On? && !s.sh.w.registering.On? && Notifier(p) == 0 && (Handle(p) == 1 || Blind(p)) {
      var j := SumWitness(s.pcs, Notifier);
      assert Knows(s.sh, s.pcs[j]);
      if Handle(p) == 1 {
        SumTwo(s.pcs, i, j, Handle);
      }
    }
  }

  lemma OthersKnow(s: State, i: nat, c: nat, j: nat)
    requires StaleInv(s) && i < |s.pcs| && j < |s.pcs| && i != j
    ensures Knows(Do(s.sh, s.pcs[i], c).sh, s.pcs[j])
  {
    SeesOf(s, i);
    StepKnows(s.sh, s.pcs[i], c);
    SumTwo(s.pcs, i, j, Handle);
    Undisturbed(s.sh, s.pcs[i], Do(s.sh, s.pcs[i], c).sh, s.pcs[j]);
  }

  lemma Undisturbed(a: Shared, p: Pc, b: Shared, q: Pc)
    requires Knows(a, q) && Leaves(a, p, b) && Handle(p) + Handle(q) <= (if a.w.task.On? then 1 else 0)
    ensures Knows(b, q)
  {
  }

  lemma StillApart(s: State, i: nat, c: nat, j: nat, k: nat)
    requires StaleInv(s) && i < |s.pcs| && j < |s.pcs| && k < |s.pcs|
    ensures var t := After(s, i, c); !(Blind(t.pcs[j]) && Cancels(t.pcs[k]))
  {
    SeesOf(s, i);
    SeesOf(s, j);
    SeesOf(s, k);
    assert !(Blind(s.pcs[j]) && Cancels(s.pcs[k]));
    var t := After(s, i, c);
    if Blind(t.pcs[j]) && !Blind(s.pcs[j]) {
      BlindArises(s.sh, s.pcs[j], c);
    }
    if Cancels(t.pcs[k]) && !Cancels(s.pcs[k]) {
      CancelArises(s.sh, s.pcs[k], c);
      if Blind(s.pcs[j]) {
        BlindHolds(s.sh, s.pcs[j]);
      }
    }
  }

  /** The step that abandons a waker is that of a blind guard that finds AWAITER set. */
  lemma AbandonsHow(a: Shared, p: Pc, c: nat)
    requires !a.stale.On? && Do(a, p, c).sh.stale.On?
    ensures Blind(p) && a.w.awaiter.On? && !WillTake(Do(a, p, c).pc) && !CancelsLater(Do(a, p, c).pc)
    ensures forall id :: !Carries(Do(a, p, c).pc, id)
  {
  }

  /** While a blind guard runs and AWAITER is set, no other thread is about to wake. */
  lemma NobodyElse(a: Shared, q: Pc, id: nat)
    requires Knows(a, q) && !Decided(a.w) && a.w.running.On? && a.w.awaiter.On? && !Cancels(q)
    ensures !Stirs(q, id)
  {
  }

  lemma AbandonsAll(s: State, i: nat, c: nat, j: nat, id: nat)
    requires StaleInv(s) && i < |s.pcs| && j < |s.pcs|
    requires !s.sh.stale.On? && After(s, i, c).sh.stale.On?
    ensures !Stirs(After(s, i, c).pcs[j], id)
  {
    AbandonsHow(s.sh, s.pcs[i], c);
    if j != i {
      SeesOf(s, i);
      BlindHolds(s.sh, s.pcs[i]);
      assert !(Blind(s.pcs[i]) && Cancels(s.pcs[j]));
      NobodyElse(s.sh, s.pcs[j], id);
    }
  }

  /** A handle does not park once a waker has been abandoned: the task is over. */
  lemma ParksBefore(a: Shared, p: Pc, c: nat)
    requires Known(a) && Flags(a) && Knows(a, p) && !a.parked.On? && Do(a, p, c).sh.parked.On?
    ensures !Do(a, p, c).sh.stale.On?
  {
    ParksHow(a, p, c);
  }

  /** Only the check after a registration parks the handle. */
  lemma ParksHow(a: Shared, p: Pc, c: nat)
    requires !a.parked.On? && Do(a, p, c).sh.parked.On?
    ensures p.OnHandle? && p.handle.PtCheck? && Undecided(a.w, p.handle.cl) && Do(a, p, c).sh.stale == a.stale
  {
  }

  lemma StillLost(s: State, i: nat, c: nat, j: nat)
    requires StaleInv(s) && i < |s.pcs| && j < |s.pcs|
    requires var t := After(s, i, c); t.sh.stale.On? && t.sh.parked.On? && t.sh.waiting.Some?
    ensures var t := After(s, i, c); !Stirs(t.pcs[j], t.sh.waiting.value)
  {
    var t := After(s, i, c);
    SeesOf(s, i);
    if !s.sh.stale.On? {
      AbandonsAll(s, i, c, j, t.sh.waiting.value);
    } else if !s.sh.parked.On? {
      ParksBefore(s.sh, s.pcs[i], c);
    } else {
      NobodyStirs(s.sh, s.pcs[i], c);
      assert !Stirs(s.pcs[j], s.sh.waiting.value);
    }
  }

  lemma StaleStep(s: State, i: nat, c: nat)
    requires StaleInv(s) && i < |s.pcs|
    ensures StaleInv(After(s, i, c))
  {
    var t := After(s, i, c);
    WaitStep(s, i, c);
    SeesOf(s, i);
    StepKnows(s.sh, s.pcs[i], c);
    forall j | 0 <= j < |t.pcs| ensures Knows(t.sh, t.pcs[j]) {
      if j != i {
        OthersKnow(s, i, c, j);
      }
    }
    forall j, k | 0 <= j < |t.pcs| && 0 <= k < |t.pcs| ensures !(Blind(t.pcs[j]) && Cancels(t.pcs[k])) {
      StillApart(s, i, c, j, k);
    }
    if t.sh.stale.On? && t.sh.parked.On? {
      forall j | 0 <= j < |t.pcs| ensures !Stirs(t.pcs[j], t.sh.waiting.value) {
        StillLost(s, i, c, j);
      }
    }
  }

  lemma {:induction false} StaleRun(s: State, moves: Schedule)
    requires StaleInv(s)
    ensures StaleInv(Execute(s, moves))
    decreases |moves|
  {
    if moves != [] {
      if moves[0].0 < |s.pcs| {
        StaleStep(s, moves[0].0, moves[0].1);
      }
      StaleRun(Move(s, moves[0]), moves[1..]);
    }
  }

  lemma StaleReachable(s: State, moves: Schedule)
    requires Init(s)
    ensures StaleInv(Execute(s, moves))
  {
    WaitReachable(s, []);
    StaleRun(s, moves);
  }

  // ---------------------------------------------------------------- theorem

  /** After `poll_task` has returned Pending, once the task is completed, or closed and
      neither scheduled nor running: the waker it registered has been woken or some
      thread is committed to waking it, if and only if no panic guard has tested
      AWAITER on a word older than the registration. In particular it has been woken
      or was lost that way once every thread is idle. */
  lemma NoLostWakeup(s: State, moves: Schedule)
    requires Init(s)
    ensures var t := Execute(s, moves);
            t.sh.parked.On? && Decided(t.sh.w) ==>
              && t.sh.waiting.Some?
              && (!t.sh.stale.On? <==>
                    t.sh.waiting.value in t.sh.woken
                    || exists i :: 0 <= i < |t.pcs| && Committed(t.pcs[i], t.sh.waiting.value))
              && ((forall i :: 0 <= i < |t.pcs| ==> t.pcs[i] == Idle) ==>
                    (t.sh.waiting.value in t.sh.woken <==> !t.sh.stale.On?))
  {
    StaleReachable(s, moves);
    var t := Execute(s, moves);
    if t.sh.parked.On? && Decided(t.sh.w) {
      if t.sh.stale.On? {
        forall i | 0 <= i < |t.pcs| ensures !Committed(t.pcs[i], t.sh.waiting.value) {
          assert !Stirs(t.pcs[i], t.sh.waiting.value);
        }
      } else {
        WaitCovers(t);
      }
    }
  }

  /** The guard's step decides it: a parked handle's waker is lost exactly if AWAITER is
      set when the flags are cleared and was not in the word the guard tests. */
  lemma GuardDecides(s: State, moves: Schedule, i: nat, c: nat)
    requires Init(s) && i < |Execute(s, moves).pcs|
    requires var p := Execute(s, moves).pcs[i]; p.OnPanic? && p.panic.GuardClear? && Execute(s, moves).sh.parked.On?
    ensures var t := Execute(s, moves);
            var u := After(t, i, c);
            var lost := t.sh.w.awaiter.On? && !t.pcs[i].panic.s.awaiter.On?;
            && u.sh.parked.On? && Decided(u.sh.w) && u.sh.waiting.Some?
            && (lost <==> u.sh.waiting.value !in u.sh.woken
                          && forall j :: 0 <= j < |u.pcs| ==> !Committed(u.pcs[j], u.sh.waiting.value))
  {
    var t := Execute(s, moves);
    StaleReachable(s, moves);
    SeesOf(t, i);
    StaleStep(t, i, c);
    var u := After(t, i, c);
    if u.sh.stale.On? {
      forall j | 0 <= j < |u.pcs| ensures !Committed(u.pcs[j], u.sh.waiting.value) {
        assert !Stirs(u.pcs[j], u.sh.waiting.value);
      }
    } else {
      WaitCovers(u);
    }
  }
}
