/** Waking the Task handle: the `register`/`take` protocol on the AWAITER, REGISTERING
    and NOTIFYING bits keeps track of the handle's waker. */
module TaskAwaiter {
  import opened Tally
  import opened TaskModel
  import opened TaskLifecycle

  // ---------------------------------------------------------------- the cell's owner

  function Registrant(p: Pc): nat { Bit(p.OnRegister? && (p.register.RegStore? || p.register.Reg2?)) }

  function Notifier(p: Pc): nat { Bit(p.OnTake? && (p.take.TakeCell? || p.take.TakeClear?)) }

  /** The cell is owned by a registrant while REGISTERING is set, and otherwise by
      the notifier that set NOTIFYING first. */
  ghost predicate CellOwned(s: State) {
    && Sum(s.pcs, Registrant) == (if s.sh.w.registering.On? then 1 else 0)
    && Sum(s.pcs, Notifier) == (if s.sh.w.notifying.On? && !s.sh.w.registering.On? then 1 else 0)
  }

  // ---------------------------------------------------------------- the invariant

  /** The result is there: nothing will change for the handle any more. */
  predicate Decided(w: Word) {
    w.completed.On? || (w.closed.On? && !w.scheduled.On? && !w.running.On?)
  }

  /** Taken out of the cell and on its way to being woken. */
  predicate Carries(p: Pc, id: nat) {
    match p
    case OnTake(TakeClear(_, Some(x))) => x == id
    case OnTake(WakeIt(x, _)) => x == id
    case OnTake(WakeLast(x)) => x == id
    case OnRelease(DropRef(WakeAwaiter(Some(x)))) => x == id
    case OnRelease(Destroy(WakeAwaiter(Some(x)))) => x == id
    case _ => false
  }

  /** Bound to look into the cell, or to leave that to the notifier already there. */
  predicate WillTake(p: Pc) {
    match p
    case OnTake(Take(_)) => true
    case OnTake(TakeCell(_)) => true
    case OnFinish(ReadyDropOut(aw)) => aw.On?
    case OnPanic(GuardDrop(aw)) => aw.On?
    case _ => false
  }

  predicate Closing(c: Caller) { c == NoneTail || c == OutTail }

  /** The handle is in use and no waker is waiting on its behalf. */
  predicate NotWaiting(p: Pc) {
    match p
    case OnRegister(_) => true
    case OnHandle(Pt(_)) => true
    case OnHandle(PtLoop(_, _)) => true
    case OnHandle(PtOut) => true
    case OnTake(Take(c)) => Closing(c)
    case OnTake(TakeCell(c)) => Closing(c)
    case OnTake(TakeClear(c, _)) => Closing(c)
    case OnTake(WakeIt(_, c)) => Closing(c)
    case OnGive(x) => x.Sd? || x.SdLoop? || x.SdRead?
    case _ => false
  }

  predicate AwaitInv(a: Shared, p: Pc) {
    && (NotWaiting(p) ==> a.waiting == None)
    && match p
       case OnTake(TakeClear(_, _)) => a.cell == None
       case OnRegister(Reg1(s, _, _)) => !s.registering.On?
       case OnRegister(Reg2(s, id, _, got)) =>
         if got.None? then a.cell == Some(id) else got == Some(id) && a.cell == None
       case OnRegister(RegWake(gid, id, _)) => gid == id
       case OnHandle(PtCheck(id, _)) => a.waiting == Some(id) && !a.parked.On?
       case _ => true
  }

  predicate SharedInv(a: Shared) {
    && (a.waiting.Some? ==> a.w.task.On?)
    && (a.parked.On? ==> a.waiting.Some?)
    && (a.w.task.On? && a.cell.Some? ==> a.w.awaiter.On? || a.w.registering.On?)
  }

  /** The waker of the last registration has been woken, or sits in the cell, or is
      on its way. */
  ghost predicate Accounted(s: State) {
    s.sh.waiting.Some? ==>
      var id := s.sh.waiting.value;
      id in s.sh.woken || s.sh.cell == Some(id) || exists i :: 0 <= i < |s.pcs| && Carries(s.pcs[i], id)
  }

  predicate Exposed(a: Shared) {
    && a.parked.On? && !a.stale.On? && Decided(a.w)
    && a.waiting.Some? && a.cell == a.waiting && a.waiting.value !in a.woken
  }

  /** Once the result is there, a waker still in the cell has someone coming for it. */
  ghost predicate Attended(s: State) {
    Exposed(s.sh) ==> exists i :: 0 <= i < |s.pcs| && WillTake(s.pcs[i])
  }

  ghost predicate WaitInv(s: State) {
    && Inv(s) && CellOwned(s) && SharedInv(s.sh)
    && (forall i :: 0 <= i < |s.pcs| ==> AwaitInv(s.sh, s.pcs[i]))
    && Accounted(s) && Attended(s)
  }

  // ---------------------------------------------------------------- one thread's view

  /** What the invariant says to a thread at `p`. */
  predicate View(a: Shared, p: Pc) {
    && SharedInv(a) && AwaitInv(a, p)
    && Registrant(p) <= (if a.w.registering.On? then 1 else 0)
    && Notifier(p) <= (if a.w.notifying.On? && !a.w.registering.On? then 1 else 0)
    && Handle(p) + a.handles <= (if a.w.task.On? then 1 else 0)
    && (a.w.registering.On? ==> a.w.task.On? && (Handle(p) == 1 ==> Registrant(p) == 1))
    && (a.w.registering.On? ==> a.handles == 0 && a.waiting == None)
    && (a.w.notifying.On? && !a.w.registering.On? && Notifier(p) == 0 && a.w.refs == 0 ==>
          a.w.task.On? && Handle(p) == 0)
    && (Burial(p) == 1 ==> a.w.refs == 0 && !a.w.task.On?)
    && (Holder(p) == 1 ==> a.w.scheduled.On? && !a.w.running.On?)
    && (Running(p) == 1 ==> a.w.running.On?)
    && ThreadInv(a, p) && Flags(a)
  }

  /** How a step changes the shares in the cell, and what it leaves true. */
  predicate Sound(a: Shared, p: Pc, b: Shared, q: Pc) {
    && SharedInv(b) && AwaitInv(b, q)
    && (if a.w.registering.On? then 1 else 0) + Registrant(q)
       == (if b.w.registering.On? then 1 else 0) + Registrant(p)
    && (if a.w.notifying.On? && !a.w.registering.On? then 1 else 0) + Notifier(q)
       == (if b.w.notifying.On? && !b.w.registering.On? then 1 else 0) + Notifier(p)
    && (b.cell != a.cell ==> Registrant(p) + Notifier(p) > 0)
    && (b.waiting != a.waiting || b.parked != a.parked ==> Handle(p) + a.handles > 0)
  }

  predicate Handed(a: Shared, p: Pc, b: Shared, q: Pc) {
    && (b.waiting.Some? ==>
          var id := b.waiting.value;
          || id in b.woken || b.cell == Some(id) || Carries(q, id)
          || (a.waiting == Some(id) && id !in a.woken && a.cell != Some(id) && !Carries(p, id)))
    && (Exposed(b) ==>
          || WillTake(q)
          || (Exposed(a) && !WillTake(p))
          || (Exposed(a) && a.w.notifying.On? && !a.w.registering.On? && Notifier(p) == 0))
  }

  lemma IdleSound(a: Shared, c: nat)
    requires View(a, Idle)
    ensures var o := DoIdle(a, c); Sound(a, Idle, o.sh, o.pc)
  {
  }

  lemma WakerSoundLoop(a: Shared, p: WakerPc, c: nat)
    requires View(a, OnWaker(p)) && (p.Wake? || p.WakeLoop? || p.Wbr?)
    ensures var o := DoWaker(a, p, c); Sound(a, OnWaker(p), o.sh, o.pc)
  {
  }

  lemma WakerSoundRef(a: Shared, p: WakerPc, c: nat)
    requires View(a, OnWaker(p)) && (p.WbrLoop? || p.WbrCall? || p.WbrReturn?)
    ensures var o := DoWaker(a, p, c); Sound(a, OnWaker(p), o.sh, o.pc)
  {
  }

  lemma WakerSoundDropRef(a: Shared, p: WakerPc, c: nat)
    requires SharedInv(a) && p.DropWaker?
    ensures var o := DoWaker(a, p, c); Sound(a, OnWaker(p), o.sh, o.pc)
  {
  }

  lemma WakerSoundDropLast(a: Shared, p: WakerPc, c: nat)
    requires View(a, OnWaker(p)) && p.LastWaker?
    ensures var o := DoWaker(a, p, c); Sound(a, OnWaker(p), o.sh, o.pc)
  {
  }

  lemma WakerSoundDrop(a: Shared, p: WakerPc, c: nat)
    requires View(a, OnWaker(p)) && (p.DropWaker? || p.LastWaker?)
    ensures var o := DoWaker(a, p, c); Sound(a, OnWaker(p), o.sh, o.pc)
  {
    if p.DropWaker? {
      WakerSoundDropRef(a, p, c);
    } else {
      WakerSoundDropLast(a, p, c);
    }
  }

  lemma WakerSound(a: Shared, p: WakerPc, c: nat)
    requires View(a, OnWaker(p))
    ensures var o := DoWaker(a, p, c); Sound(a, OnWaker(p), o.sh, o.pc)
  {
    if p.Wake? || p.WakeLoop? || p.Wbr? {
      WakerSoundLoop(a, p, c);
    } else if p.WbrLoop? || p.WbrCall? || p.WbrReturn? {
      WakerSoundRef(a, p, c);
    } else {
      WakerSoundDrop(a, p, c);
    }
  }

  lemma ReleaseRefSound(a: Shared, p: ReleasePc)
    requires SharedInv(a) && p.DropRef?
    ensures var o := DoRelease(a, p); Sound(a, OnRelease(p), o.sh, o.pc)
  {
  }

  lemma ReleaseFreeSound(a: Shared, p: ReleasePc)
    requires SharedInv(a) && p.Destroy?
    ensures var o := DoRelease(a, p); Sound(a, OnRelease(p), o.sh, o.pc)
  {
  }

  lemma ReleaseScheduleSound(a: Shared, p: ReleasePc)
    requires SharedInv(a) && (p.Sched? || p.SchedCall? || p.SchedReturn?)
    ensures var o := DoRelease(a, p); Sound(a, OnRelease(p), o.sh, o.pc)
  {
  }

  lemma ReleaseSound(a: Shared, p: ReleasePc)
    requires SharedInv(a)
    ensures var o := DoRelease(a, p); Sound(a, OnRelease(p), o.sh, o.pc)
  {
    if p.DropRef? {
      ReleaseRefSound(a, p);
    } else if p.Destroy? {
      ReleaseFreeSound(a, p);
    } else {
      ReleaseScheduleSound(a, p);
    }
  }

  lemma RunSound(a: Shared, p: RunPc, c: nat)
    requires SharedInv(a)
    ensures var o := DoRun(a, p, c); Sound(a, OnRun(p), o.sh, o.pc)
  {
  }

  lemma FinishReadySound(a: Shared, p: FinishPc, c: nat)
    requires SharedInv(a) && p.ReadyLoop?
    ensures var o := DoFinish(a, p, c); Sound(a, OnFinish(p), o.sh, o.pc)
  {
  }

  lemma FinishPendingSound(a: Shared, p: FinishPc, c: nat)
    requires SharedInv(a) && p.PendLoop?
    ensures var o := DoFinish(a, p, c); Sound(a, OnFinish(p), o.sh, o.pc)
  {
  }

  lemma FinishValueSound(a: Shared, p: FinishPc, c: nat)
    requires SharedInv(a) && (p.ReadyDrop? || p.ReadyWrite? || p.ReadyDropOut?)
    ensures var o := DoFinish(a, p, c); Sound(a, OnFinish(p), o.sh, o.pc)
  {
  }

  lemma FinishSound(a: Shared, p: FinishPc, c: nat)
    requires SharedInv(a)
    ensures var o := DoFinish(a, p, c); Sound(a, OnFinish(p), o.sh, o.pc)
  {
    if p.ReadyLoop? {
      FinishReadySound(a, p, c);
    } else if p.PendLoop? {
      FinishPendingSound(a, p, c);
    } else {
      FinishValueSound(a, p, c);
    }
  }

  lemma PanicSound(a: Shared, p: PanicPc, c: nat)
    requires SharedInv(a)
    ensures var o := DoPanic(a, p, c); Sound(a, OnPanic(p), o.sh, o.pc)
  {
  }

  lemma DropClearSound(a: Shared, p: DropPc, c: nat)
    requires SharedInv(a) && p.RdClear?
    ensures var o := DoDrop(a, p, c); Sound(a, OnDrop(p), o.sh, o.pc)
  {
  }

  lemma DropLoopSound(a: Shared, p: DropPc, c: nat)
    requires SharedInv(a) && p.RdLoop?
    ensures var o := DoDrop(a, p, c); Sound(a, OnDrop(p), o.sh, o.pc)
  {
  }

  lemma DropStartSound(a: Shared, p: DropPc, c: nat)
    requires SharedInv(a) && (p.Rd? || p.RdDrop?)
    ensures var o := DoDrop(a, p, c); Sound(a, OnDrop(p), o.sh, o.pc)
  {
  }

  lemma DropSound(a: Shared, p: DropPc, c: nat)
    requires View(a, OnDrop(p))
    ensures var o := DoDrop(a, p, c); Sound(a, OnDrop(p), o.sh, o.pc)
  {
    if p.RdClear? {
      DropClearSound(a, p, c);
    } else if p.RdLoop? {
      DropLoopSound(a, p, c);
    } else {
      DropStartSound(a, p, c);
    }
  }

  lemma TakeSoundOpenMark(a: Shared, p: TakePc, c: nat)
    requires View(a, OnTake(p)) && p.Take?
    ensures var o := DoTake(a, p, c); Sound(a, OnTake(p), o.sh, o.pc)
  {
  }

  lemma TakeSoundOpenCell(a: Shared, p: TakePc, c: nat)
    requires View(a, OnTake(p)) && p.TakeCell?
    ensures var o := DoTake(a, p, c); Sound(a, OnTake(p), o.sh, o.pc)
  {
  }

  lemma TakeSoundOpen(a: Shared, p: TakePc, c: nat)
    requires View(a, OnTake(p)) && (p.Take? || p.TakeCell?)
    ensures var o := DoTake(a, p, c); Sound(a, OnTake(p), o.sh, o.pc)
  {
    if p.Take? {
      TakeSoundOpenMark(a, p, c);
    } else {
      TakeSoundOpenCell(a, p, c);
    }
  }

  lemma TakeSoundClose(a: Shared, p: TakePc, c: nat)
    requires SharedInv(a) && AwaitInv(a, OnTake(p)) && a.w.notifying.On? && !a.w.registering.On? && p.TakeClear?
    ensures var o := DoTake(a, p, c); Sound(a, OnTake(p), o.sh, o.pc)
  {
  }

  lemma TakeSoundWake(a: Shared, p: TakePc, c: nat)
    requires View(a, OnTake(p)) && (p.WakeIt? || p.WakeLast?)
    ensures var o := DoTake(a, p, c); Sound(a, OnTake(p), o.sh, o.pc)
  {
  }

  lemma TakeSound(a: Shared, p: TakePc, c: nat)
    requires View(a, OnTake(p))
    ensures var o := DoTake(a, p, c); Sound(a, OnTake(p), o.sh, o.pc)
  {
    if p.Take? || p.TakeCell? {
      TakeSoundOpen(a, p, c);
    } else if p.TakeClear? {
      TakeSoundClose(a, p, c);
    } else {
      TakeSoundWake(a, p, c);
    }
  }

  lemma RegisterSoundOpen(a: Shared, p: RegisterPc, c: nat)
    requires View(a, OnRegister(p)) && (p.Reg? || p.Reg1? || p.RegStore?)
    ensures var o := DoRegister(a, p, c); Sound(a, OnRegister(p), o.sh, o.pc)
  {
  }

  lemma RegisterSoundSettle(a: Shared, p: RegisterPc, c: nat)
    requires View(a, OnRegister(p)) && p.Reg2?
    ensures var o := DoRegister(a, p, c); Sound(a, OnRegister(p), o.sh, o.pc)
  {
  }

  lemma RegisterSoundWake(a: Shared, p: RegisterPc, c: nat)
    requires View(a, OnRegister(p)) && (p.RegSelf? || p.RegWake?)
    ensures var o := DoRegister(a, p, c); Sound(a, OnRegister(p), o.sh, o.pc)
  {
  }

  lemma RegisterSound(a: Shared, p: RegisterPc, c: nat)
    requires View(a, OnRegister(p))
    ensures var o := DoRegister(a, p, c); Sound(a, OnRegister(p), o.sh, o.pc)
  {
    if p.Reg? || p.Reg1? || p.RegStore? {
      RegisterSoundOpen(a, p, c);
    } else if p.Reg2? {
      RegisterSoundSettle(a, p, c);
    } else {
      RegisterSoundWake(a, p, c);
    }
  }

  lemma HandleSoundLoop(a: Shared, p: HandlePc)
    requires View(a, OnHandle(p)) && p.PtLoop?
    ensures var o := DoHandle(a, p); Sound(a, OnHandle(p), o.sh, o.pc)
  {
  }

  lemma HandleSoundCheck(a: Shared, p: HandlePc)
    requires View(a, OnHandle(p)) && p.PtCheck?
    ensures var o := DoHandle(a, p); Sound(a, OnHandle(p), o.sh, o.pc)
  {
  }

  lemma HandleSoundRest(a: Shared, p: HandlePc)
    requires View(a, OnHandle(p)) && (p.Pt? || p.PtOut? || p.HandleBack?)
    ensures var o := DoHandle(a, p); Sound(a, OnHandle(p), o.sh, o.pc)
  {
  }

  lemma HandleSound(a: Shared, p: HandlePc)
    requires View(a, OnHandle(p))
    ensures var o := DoHandle(a, p); Sound(a, OnHandle(p), o.sh, o.pc)
  {
    if p.PtLoop? {
      HandleSoundLoop(a, p);
    } else if p.PtCheck? {
      HandleSoundCheck(a, p);
    } else {
      HandleSoundRest(a, p);
    }
  }

  lemma GiveCancelSound(a: Shared, p: GivePc, c: nat)
    requires SharedInv(a) && (p.Sc? || p.ScLoop?)
    ensures var o := DoGive(a, p, c); Sound(a, OnGive(p), o.sh, o.pc)
  {
  }

  lemma GiveDetachSound(a: Shared, p: GivePc, c: nat)
    requires SharedInv(a) && AwaitInv(a, OnGive(p)) && Handle(OnGive(p)) + a.handles <= 1 && (p.Sd? || p.SdRead?)
    ensures var o := DoGive(a, p, c); Sound(a, OnGive(p), o.sh, o.pc)
  {
  }

  lemma GiveLastSound(a: Shared, p: GivePc, c: nat)
    requires View(a, OnGive(p)) && p.SdLoop?
    ensures var o := DoGive(a, p, c); Sound(a, OnGive(p), o.sh, o.pc)
  {
  }

  lemma GiveSound(a: Shared, p: GivePc, c: nat)
    requires View(a, OnGive(p))
    ensures var o := DoGive(a, p, c); Sound(a, OnGive(p), o.sh, o.pc)
  {
    if p.Sc? || p.ScLoop? {
      GiveCancelSound(a, p, c);
    } else if p.Sd? || p.SdRead? {
      GiveDetachSound(a, p, c);
    } else {
      GiveLastSound(a, p, c);
    }
  }

  lemma IdleHanded(a: Shared, c: nat)
    requires View(a, Idle)
    ensures var o := DoIdle(a, c); Handed(a, Idle, o.sh, o.pc)
  {
  }

  lemma WakerHandedLoop(a: Shared, p: WakerPc, c: nat)
    requires View(a, OnWaker(p)) && (p.Wake? || p.WakeLoop? || p.Wbr?)
    ensures var o := DoWaker(a, p, c); Handed(a, OnWaker(p), o.sh, o.pc)
  {
  }

  lemma WakerHandedRef(a: Shared, p: WakerPc, c: nat)
    requires View(a, OnWaker(p)) && (p.WbrLoop? || p.WbrCall? || p.WbrReturn?)
    ensures var o := DoWaker(a, p, c); Handed(a, OnWaker(p), o.sh, o.pc)
  {
  }

  lemma WakerHandedDrop(a: Shared, p: WakerPc, c: nat)
    requires View(a, OnWaker(p)) && (p.DropWaker? || p.LastWaker?)
    ensures var o := DoWaker(a, p, c); Handed(a, OnWaker(p), o.sh, o.pc)
  {
  }

  lemma WakerHanded(a: Shared, p: WakerPc, c: nat)
    requires View(a, OnWaker(p))
    ensures var o := DoWaker(a, p, c); Handed(a, OnWaker(p), o.sh, o.pc)
  {
    if p.Wake? || p.WakeLoop? || p.Wbr? {
      WakerHandedLoop(a, p, c);
    } else if p.WbrLoop? || p.WbrCall? || p.WbrReturn? {
      WakerHandedRef(a, p, c);
    } else {
      WakerHandedDrop(a, p, c);
    }
  }

  lemma ReleaseRefHanded(a: Shared, p: ReleasePc)
    requires View(a, OnRelease(p)) && p.DropRef?
    ensures var o := DoRelease(a, p); Handed(a, OnRelease(p), o.sh, o.pc)
  {
  }

  lemma ReleaseFreeHanded(a: Shared, p: ReleasePc)
    requires View(a, OnRelease(p)) && p.Destroy?
    ensures var o := DoRelease(a, p); Handed(a, OnRelease(p), o.sh, o.pc)
  {
  }

  lemma ReleaseScheduleHanded(a: Shared, p: ReleasePc)
    requires View(a, OnRelease(p)) && (p.Sched? || p.SchedCall? || p.SchedReturn?)
    ensures var o := DoRelease(a, p); Handed(a, OnRelease(p), o.sh, o.pc)
  {
  }

  lemma ReleaseHanded(a: Shared, p: ReleasePc)
    requires View(a, OnRelease(p))
    ensures var o := DoRelease(a, p); Handed(a, OnRelease(p), o.sh, o.pc)
  {
    if p.DropRef? {
      ReleaseRefHanded(a, p);
    } else if p.Destroy? {
      ReleaseFreeHanded(a, p);
    } else {
      ReleaseScheduleHanded(a, p);
    }
  }

  lemma RunHanded(a: Shared, p: RunPc, c: nat)
    requires View(a, OnRun(p))
    ensures var o := DoRun(a, p, c); Handed(a, OnRun(p), o.sh, o.pc)
  {
  }

  lemma FinishReadyHanded(a: Shared, p: FinishPc, c: nat)
    requires View(a, OnFinish(p)) && p.ReadyLoop?
    ensures var o := DoFinish(a, p, c); Handed(a, OnFinish(p), o.sh, o.pc)
  {
  }

  lemma FinishPendingHanded(a: Shared, p: FinishPc, c: nat)
    requires View(a, OnFinish(p)) && p.PendLoop?
    ensures var o := DoFinish(a, p, c); Handed(a, OnFinish(p), o.sh, o.pc)
  {
  }

  lemma FinishValueHanded(a: Shared, p: FinishPc, c: nat)
    requires View(a, OnFinish(p)) && (p.ReadyDrop? || p.ReadyWrite? || p.ReadyDropOut?)
    ensures var o := DoFinish(a, p, c); Handed(a, OnFinish(p), o.sh, o.pc)
  {
  }

  lemma FinishHanded(a: Shared, p: FinishPc, c: nat)
    requires View(a, OnFinish(p))
    ensures var o := DoFinish(a, p, c); Handed(a, OnFinish(p), o.sh, o.pc)
  {
    if p.ReadyLoop? {
      FinishReadyHanded(a, p, c);
    } else if p.PendLoop? {
      FinishPendingHanded(a, p, c);
    } else {
      FinishValueHanded(a, p, c);
    }
  }

  lemma PanicHanded(a: Shared, p: PanicPc, c: nat)
    requires View(a, OnPanic(p))
    ensures var o := DoPanic(a, p, c); Handed(a, OnPanic(p), o.sh, o.pc)
  {
  }

  lemma DropClearHanded(a: Shared, p: DropPc, c: nat)
    requires View(a, OnDrop(p)) && p.RdClear?
    ensures var o := DoDrop(a, p, c); Handed(a, OnDrop(p), o.sh, o.pc)
  {
  }

  lemma DropLoopHanded(a: Shared, p: DropPc, c: nat)
    requires View(a, OnDrop(p)) && p.RdLoop?
    ensures var o := DoDrop(a, p, c); Handed(a, OnDrop(p), o.sh, o.pc)
  {
  }

  lemma DropStartHanded(a: Shared, p: DropPc, c: nat)
    requires View(a, OnDrop(p)) && (p.Rd? || p.RdDrop?)
    ensures var o := DoDrop(a, p, c); Handed(a, OnDrop(p), o.sh, o.pc)
  {
  }

  lemma DropHanded(a: Shared, p: DropPc, c: nat)
    requires View(a, OnDrop(p))
    ensures var o := DoDrop(a, p, c); Handed(a, OnDrop(p), o.sh, o.pc)
  {
    if p.RdClear? {
      DropClearHanded(a, p, c);
    } else if p.RdLoop? {
      DropLoopHanded(a, p, c);
    } else {
      DropStartHanded(a, p, c);
    }
  }

  lemma TakeHandedOpen(a: Shared, p: TakePc, c: nat)
    requires View(a, OnTake(p)) && (p.Take? || p.TakeCell?)
    ensures var o := DoTake(a, p, c); Handed(a, OnTake(p), o.sh, o.pc)
  {
  }

  lemma TakeHandedClose(a: Shared, p: TakePc, c: nat)
    requires View(a, OnTake(p)) && p.TakeClear?
    ensures var o := DoTake(a, p, c); Handed(a, OnTake(p), o.sh, o.pc)
  {
  }

  lemma TakeHandedWake(a: Shared, p: TakePc, c: nat)
    requires View(a, OnTake(p)) && (p.WakeIt? || p.WakeLast?)
    ensures var o := DoTake(a, p, c); Handed(a, OnTake(p), o.sh, o.pc)
  {
  }

  lemma TakeHanded(a: Shared, p: TakePc, c: nat)
    requires View(a, OnTake(p))
    ensures var o := DoTake(a, p, c); Handed(a, OnTake(p), o.sh, o.pc)
  {
    if p.Take? || p.TakeCell? {
      TakeHandedOpen(a, p, c);
    } else if p.TakeClear? {
      TakeHandedClose(a, p, c);
    } else {
      TakeHandedWake(a, p, c);
    }
  }

  lemma RegisterHandedOpen(a: Shared, p: RegisterPc, c: nat)
    requires View(a, OnRegister(p)) && (p.Reg? || p.Reg1? || p.RegStore?)
    ensures var o := DoRegister(a, p, c); Handed(a, OnRegister(p), o.sh, o.pc)
  {
  }

  lemma RegisterHandedSettle(a: Shared, p: RegisterPc, c: nat)
    requires View(a, OnRegister(p)) && p.Reg2?
    ensures var o := DoRegister(a, p, c); Handed(a, OnRegister(p), o.sh, o.pc)
  {
  }

  lemma RegisterHandedWake(a: Shared, p: RegisterPc, c: nat)
    requires View(a, OnRegister(p)) && (p.RegSelf? || p.RegWake?)
    ensures var o := DoRegister(a, p, c); Handed(a, OnRegister(p), o.sh, o.pc)
  {
  }

  lemma RegisterHanded(a: Shared, p: RegisterPc, c: nat)
    requires View(a, OnRegister(p))
    ensures var o := DoRegister(a, p, c); Handed(a, OnRegister(p), o.sh, o.pc)
  {
    if p.Reg? || p.Reg1? || p.RegStore? {
      RegisterHandedOpen(a, p, c);
    } else if p.Reg2? {
      RegisterHandedSettle(a, p, c);
    } else {
      RegisterHandedWake(a, p, c);
    }
  }

  lemma HandleHandedLoop(a: Shared, p: HandlePc)
    requires View(a, OnHandle(p)) && p.PtLoop?
    ensures var o := DoHandle(a, p); Handed(a, OnHandle(p), o.sh, o.pc)
  {
  }

  lemma HandleHandedCheck(a: Shared, p: HandlePc)
    requires View(a, OnHandle(p)) && p.PtCheck?
    ensures var o := DoHandle(a, p); Handed(a, OnHandle(p), o.sh, o.pc)
  {
  }

  lemma HandleHandedRest(a: Shared, p: HandlePc)
    requires View(a, OnHandle(p)) && (p.Pt? || p.PtOut? || p.HandleBack?)
    ensures var o := DoHandle(a, p); Handed(a, OnHandle(p), o.sh, o.pc)
  {
  }

  lemma HandleHanded(a: Shared, p: HandlePc)
    requires View(a, OnHandle(p))
    ensures var o := DoHandle(a, p); Handed(a, OnHandle(p), o.sh, o.pc)
  {
    if p.PtLoop? {
      HandleHandedLoop(a, p);
    } else if p.PtCheck? {
      HandleHandedCheck(a, p);
    } else {
      HandleHandedRest(a, p);
    }
  }

  lemma GiveCancelHanded(a: Shared, p: GivePc, c: nat)
    requires p.Sc? || p.ScLoop?
    ensures var o := DoGive(a, p, c); Handed(a, OnGive(p), o.sh, o.pc)
  {
  }

  lemma GiveDetachHanded(a: Shared, p: GivePc, c: nat)
    requires AwaitInv(a, OnGive(p)) && (p.Sd? || p.SdRead?)
    ensures var o := DoGive(a, p, c); Handed(a, OnGive(p), o.sh, o.pc)
  {
  }

  lemma GiveLastHanded(a: Shared, p: GivePc, c: nat)
    requires View(a, OnGive(p)) && p.SdLoop?
    ensures var o := DoGive(a, p, c); Handed(a, OnGive(p), o.sh, o.pc)
  {
  }

  lemma GiveHanded(a: Shared, p: GivePc, c: nat)
    requires View(a, OnGive(p))
    ensures var o := DoGive(a, p, c); Handed(a, OnGive(p), o.sh, o.pc)
  {
    if p.Sc? || p.ScLoop? {
      GiveCancelHanded(a, p, c);
    } else if p.Sd? || p.SdRead? {
      GiveDetachHanded(a, p, c);
    } else {
      GiveLastHanded(a, p, c);
    }
  }

  lemma StepSound(a: Shared, p: Pc, c: nat)
    requires View(a, p)
    ensures var o := Do(a, p, c); Sound(a, p, o.sh, o.pc)
  {
    match p
    case Idle => IdleSound(a, c);
    case OnWaker(x) => WakerSound(a, x, c);
    case OnRelease(x) => ReleaseSound(a, x);
    case OnRun(x) => RunSound(a, x, c);
    case OnFinish(x) => FinishSound(a, x, c);
    case OnPanic(x) => PanicSound(a, x, c);
    case OnDrop(x) => DropSound(a, x, c);
    case OnTake(x) => TakeSound(a, x, c);
    case OnRegister(x) => RegisterSound(a, x, c);
    case OnHandle(x) => HandleSound(a, x);
    case OnGive(x) => GiveSound(a, x, c);
  }

  lemma StepHanded(a: Shared, p: Pc, c: nat)
    requires View(a, p)
    ensures var o := Do(a, p, c); Handed(a, p, o.sh, o.pc)
  {
    match p
    case Idle => IdleHanded(a, c);
    case OnWaker(x) => WakerHanded(a, x, c);
    case OnRelease(x) => ReleaseHanded(a, x);
    case OnRun(x) => RunHanded(a, x, c);
    case OnFinish(x) => FinishHanded(a, x, c);
    case OnPanic(x) => PanicHanded(a, x, c);
    case OnDrop(x) => DropHanded(a, x, c);
    case OnTake(x) => TakeHanded(a, x, c);
    case OnRegister(x) => RegisterHanded(a, x, c);
    case OnHandle(x) => HandleHanded(a, x);
    case OnGive(x) => GiveHanded(a, x, c);
  }

  // ---------------------------------------------------------------- all threads

  lemma RegistrantsAreHandles(s: State)
    requires WaitInv(s) && s.sh.w.registering.On?
    ensures s.sh.w.task.On? && s.sh.handles == 0 && s.sh.waiting == None
    ensures exists i :: 0 <= i < |s.pcs| && Registrant(s.pcs[i]) == 1
  {
    var i := SumWitness(s.pcs, Registrant);
    SumAt(s.pcs, i, Handle);
    assert AwaitInv(s.sh, s.pcs[i]);
  }

  lemma SoleHandle(s: State, i: nat, j: nat)
    requires Inv(s) && i < |s.pcs| && j < |s.pcs| && i != j && Handle(s.pcs[j]) == 1
    ensures Handle(s.pcs[i]) == 0 && s.sh.handles == 0 && s.sh.w.task.On?
  {
    SumTwo(s.pcs, i, j, Handle);
  }

  lemma ViewOf(s: State, i: nat)
    requires WaitInv(s) && i < |s.pcs|
    ensures View(s.sh, s.pcs[i])
  {
    var p := s.pcs[i];
    LocalView(s, i);
    SumAt(s.pcs, i, Registrant);
    SumAt(s.pcs, i, Notifier);
    if s.sh.w.registering.On? {
      RegistrantsAreHandles(s);
      var j :| 0 <= j < |s.pcs| && Registrant(s.pcs[j]) == 1;
      if j != i {
        SoleHandle(s, i, j);
      }
    }
    if s.sh.w.notifying.On? && !s.sh.w.registering.On? && Notifier(p) == 0 && s.sh.w.refs == 0 {
      var j := SumWitness(s.pcs, Notifier);
      SumAt(s.pcs, j, Refs);
      SoleHandle(s, i, j);
    }
  }

  /** Only the cell's owner changes the cell, only the handle's user changes what the
      handle waits for; so what another thread knows of them stays true. */
  lemma OthersWait(s: State, i: nat, c: nat, j: nat)
    requires WaitInv(s) && i < |s.pcs| && j < |s.pcs| && i != j
    ensures AwaitInv(Do(s.sh, s.pcs[i], c).sh, s.pcs[j])
  {
    ViewOf(s, i);
    StepSound(s.sh, s.pcs[i], c);
    assert AwaitInv(s.sh, s.pcs[j]);
    SumTwo(s.pcs, i, j, Registrant);
    SumTwo(s.pcs, i, j, Notifier);
    SumAt(s.pcs, i, Registrant);
    SumAt(s.pcs, j, Registrant);
    SumAt(s.pcs, i, Notifier);
    SumAt(s.pcs, j, Notifier);
    SumTwo(s.pcs, i, j, Handle);
    Frozen(s.sh, Do(s.sh, s.pcs[i], c).sh, s.pcs[j]);
  }

  lemma Frozen(a: Shared, b: Shared, p: Pc)
    requires AwaitInv(a, p)
    requires Registrant(p) + Notifier(p) > 0 ==> b.cell == a.cell
    requires Handle(p) > 0 ==> b.waiting == a.waiting && b.parked == a.parked
    ensures AwaitInv(b, p)
  {
  }

  lemma StillAccounted(s: State, i: nat, c: nat)
    requires WaitInv(s) && i < |s.pcs|
    ensures Accounted(After(s, i, c))
  {
    ViewOf(s, i);
    StepHanded(s.sh, s.pcs[i], c);
    var t := After(s, i, c);
    if t.sh.waiting.Some? {
      var id := t.sh.waiting.value;
      if id in t.sh.woken || t.sh.cell == Some(id) {
      } else if Carries(t.pcs[i], id) {
      } else {
        var j :| 0 <= j < |s.pcs| && Carries(s.pcs[j], id);
        assert t.pcs[j] == s.pcs[j];
      }
    }
  }

  lemma StillAttended(s: State, i: nat, c: nat)
    requires WaitInv(s) && i < |s.pcs|
    ensures Attended(After(s, i, c))
  {
    ViewOf(s, i);
    StepHanded(s.sh, s.pcs[i], c);
    var t := After(s, i, c);
    if Exposed(t.sh) {
      if WillTake(t.pcs[i]) {
      } else if !WillTake(s.pcs[i]) {
        var j :| 0 <= j < |s.pcs| && WillTake(s.pcs[j]);
        assert t.pcs[j] == s.pcs[j];
      } else {
        var j := SumWitness(s.pcs, Notifier);
        assert AwaitInv(s.sh, s.pcs[j]);
        assert WillTake(s.pcs[j]) && t.pcs[j] == s.pcs[j];
      }
    }
  }

  lemma WaitStep(s: State, i: nat, c: nat)
    requires WaitInv(s) && i < |s.pcs|
    ensures WaitInv(After(s, i, c))
  {
    StepKeeps(s, i, c);
    ViewOf(s, i);
    StepSound(s.sh, s.pcs[i], c);
    var t := After(s, i, c);
    SumUpdate(s.pcs, i, t.pcs[i], Registrant);
    SumUpdate(s.pcs, i, t.pcs[i], Notifier);
    forall j | 0 <= j < |t.pcs| ensures AwaitInv(t.sh, t.pcs[j]) {
      if j != i {
        OthersWait(s, i, c, j);
      }
    }
    StillAccounted(s, i, c);
    StillAttended(s, i, c);
  }

  lemma {:induction false} RunWaits(s: State, moves: Schedule)
    requires WaitInv(s)
    ensures WaitInv(Execute(s, moves))
    decreases |moves|
  {
    if moves != [] {
      if moves[0].0 < |s.pcs| {
        WaitStep(s, moves[0].0, moves[0].1);
      }
      RunWaits(Move(s, moves[0]), moves[1..]);
    }
  }

  lemma WaitReachable(s: State, moves: Schedule)
    requires Init(s)
    ensures WaitInv(Execute(s, moves))
  {
    InitHolds(s);
    SumZero(s.pcs, Registrant);
    SumZero(s.pcs, Notifier);
    RunWaits(s, moves);
  }

  // ---------------------------------------------------------------- what runs guarantee

  /** A thread that will wake the waker, or take it from the cell in order to. */
  predicate Committed(p: Pc, id: nat) { Carries(p, id) || WillTake(p) }

  /** Once the task is over, the waker of a pending `poll_task` has been woken or some
      thread is committed to waking it, unless a panic guard has missed it. */
  lemma WaitCovers(t: State)
    requires WaitInv(t) && t.sh.parked.On? && Decided(t.sh.w) && !t.sh.stale.On?
    ensures t.sh.waiting.Some?
    ensures t.sh.waiting.value in t.sh.woken
            || exists i :: 0 <= i < |t.pcs| && Committed(t.pcs[i], t.sh.waiting.value)
  {
    var id := t.sh.waiting.value;
    if id !in t.sh.woken {
      if t.sh.cell == Some(id) {
        var i :| 0 <= i < |t.pcs| && WillTake(t.pcs[i]);
        assert Committed(t.pcs[i], id);
      } else {
        var i :| 0 <= i < |t.pcs| && Carries(t.pcs[i], id);
        assert Committed(t.pcs[i], id);
      }
    }
  }

  /** The awaiter cell is touched by at most one thread at a time, and `register`
      never meets another registration. */
  lemma CellIsExclusive(s: State, moves: Schedule, i: nat, j: nat)
    requires Init(s)
    requires i < |Execute(s, moves).pcs| && j < |Execute(s, moves).pcs| && i != j
    ensures var t := Execute(s, moves);
            && Registrant(t.pcs[i]) + Notifier(t.pcs[i]) + Registrant(t.pcs[j]) + Notifier(t.pcs[j]) <= 1
            && (t.pcs[i].OnRegister? && t.pcs[i].register.Reg1? ==>
                  !t.pcs[i].register.s.registering.On? && !t.sh.w.registering.On?)
  {
    WaitReachable(s, moves);
    var t := Execute(s, moves);
    SumTwo(t.pcs, i, j, Registrant);
    SumTwo(t.pcs, i, j, Notifier);
    ViewOf(t, i);
    ViewOf(t, j);
    assert AwaitInv(t.sh, t.pcs[i]);
  }
}
