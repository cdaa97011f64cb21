/** The sleep and notify protocol of runtime/executor.rs: tickers search the queues and
    go to sleep, pushers notify. The `notified` flag and the sleeper list are changed
    in separate steps, one without the list's lock. */
module SleepProtocol {
  import opened Tally
  import opened Sleeper

  /** The lock on the sleeper list. `urgent` marks a holder that has changed the list
      and has yet to bring the flag up to date, and will search or notify afterwards. */
  datatype Lock = Open | Held(holder: nat, urgent: Flag)

  /** `queued` counts the runnables of the global queue and `woken` holds the wakers
      that have been called since their poll. History variables: `owners` gives the
      holder of each id, `window` the threads between setting the flag and popping a
      waker, `hands` the popped wakers not yet called, by the thread holding them. */
  datatype Shared = Shared(
    queued: nat, notified: Flag, roster: Roster, lock: Lock, woken: set<Waker>,
    owners: map<nat, nat>, window: set<nat>, hands: map<nat, Waker>)

  datatype TickPc =
    | Search
    | Stealing
    | SearchRest
    | SleepLock
    | SleepSwap
    | SleepUnlock(again: Flag)
    | Found
    | WakeLock(id: nat)
    | WakeSwap
    | WakeUnlock
    | Parked
    | DropLock(id: nat)
    | DropSwap(was: Flag)
    | DropUnlock(was: Flag)

  datatype NotifyPc =
    | NotifyCas
    | NotifyLock
    | NotifyUnlock(popped: Option<Waker>)
    | NotifyWake(w: Waker)

  datatype Pc = Idle | OnTick(tick: TickPc) | OnNotify(notify: NotifyPc)

  /** A thread with its ticker: `id` is the ticker's `sleeping` field and `poll`
      numbers the waker of its latest poll. */
  datatype Thread = Thread(id: nat, poll: nat, pc: Pc)

  datatype State = State(sh: Shared, threads: seq<Thread>)

  datatype Out = Out(sh: Shared, th: Thread)

  function At(th: Thread, p: TickPc): Thread { th.(pc := OnTick(p)) }

  /** `Ticker::runnable_with` up to a result: local pops are a free choice `c`. */
  function DoSearch(a: Shared, i: nat, th: Thread, c: nat): Out
    requires th.pc.OnTick?
  {
    match th.pc.tick
    case Search =>
      if c == 0 then Out(a, At(th, Found))
      else if a.queued > 0 then Out(a.(queued := a.queued - 1), At(th, Stealing))
      else Out(a, At(th, SearchRest))
    case Stealing =>
      if c == 0 || a.queued == 0 then Out(a, At(th, Found))
      else Out(a.(queued := a.queued - 1), th)
    case SearchRest => Out(a, At(th, if c == 0 then Found else SleepLock))
    case Found =>
      if th.id == 0 then Out(a, th.(pc := OnNotify(NotifyCas)))
      else Out(a, Thread(0, th.poll, OnTick(WakeLock(th.id))))
    case _ => Out(a, th)
  }

  /** `Ticker::sleep` and returning Pending. */
  function DoSleep(a: Shared, i: nat, th: Thread, c: nat): Out
    requires th.pc.OnTick?
  {
    match th.pc.tick
    case SleepLock =>
      if a.lock.Held? then Out(a, th)
      else if th.id == 0 then
        var id := NextId(a.roster);
        Out(a.(roster := Inserted(a.roster, Waker(i, th.poll)), lock := Held(i, On), owners := a.owners[id := i]),
            Thread(id, th.poll, OnTick(SleepSwap)))
      else
        var r := Updated(a.roster, th.id, Waker(i, th.poll));
        if Listed(a.roster, th.id) then Out(a.(roster := r, lock := Held(i, Off)), At(th, SleepUnlock(Off)))
        else Out(a.(roster := r, lock := Held(i, On)), At(th, SleepSwap))
    case SleepSwap =>
      Out(a.(notified := Flagged(IsNotified(a.roster)), lock := Held(i, Off)), At(th, SleepUnlock(On)))
    case SleepUnlock(again) => Out(a.(lock := Open), At(th, if again.On? then Search else Parked))
    case Parked =>
      if c == 0 then Out(a, Thread(0, th.poll, OnTick(DropLock(th.id))))
      else Out(a.(woken := a.woken - {Waker(i, c)}), Thread(th.id, c, OnTick(Search)))
    case _ => Out(a, th)
  }

  /** With the lock taken, `id` leaves the list. */
  function TakeOff(a: Shared, i: nat, id: nat, urgent: Flag): Shared
    requires a.roster.count > 0
  {
    a.(roster := Removed(a.roster, id), lock := Held(i, urgent), owners := a.owners - {id})
  }

  /** `Ticker::wake` and `Drop for Ticker`. */
  function DoRemove(a: Shared, i: nat, th: Thread): Out
    requires th.pc.OnTick?
  {
    match th.pc.tick
    case WakeLock(id) =>
      if a.lock.Held? || a.roster.count == 0 then Out(a, th)
      else Out(TakeOff(a, i, id, On), At(th, WakeSwap))
    case WakeSwap => Out(a.(notified := Flagged(IsNotified(a.roster)), lock := Held(i, Off)), At(th, WakeUnlock))
    case WakeUnlock => Out(a.(lock := Open), th.(pc := OnNotify(NotifyCas)))
    case DropLock(id) =>
      if a.lock.Held? || a.roster.count == 0 then Out(a, th)
      else
        var was := Flagged(!Listed(a.roster, id));
        Out(TakeOff(a, i, id, was), At(th, DropSwap(was)))
    case DropSwap(was) =>
      Out(a.(notified := Flagged(IsNotified(a.roster)), lock := Held(i, Off)), At(th, DropUnlock(was)))
    case DropUnlock(was) => Out(a.(lock := Open), th.(pc := if was.On? then OnNotify(NotifyCas) else Idle))
    case _ => Out(a, th)
  }

  /** `State::notify`. */
  function DoNotify(a: Shared, i: nat, th: Thread): Out
    requires th.pc.OnNotify?
  {
    match th.pc.notify
    case NotifyCas =>
      if a.notified.On? then Out(a, th.(pc := Idle))
      else Out(a.(notified := On, window := a.window + {i}), th.(pc := OnNotify(NotifyLock)))
    case NotifyLock =>
      if a.lock.Held? then Out(a, th)
      else
        var b := a.(roster := Notified(a.roster), lock := Held(i, Off), window := a.window - {i});
        if Popped(a.roster).Some? then
          var w := Popped(a.roster).value.1;
          Out(b.(hands := a.hands[i := w]), th.(pc := OnNotify(NotifyUnlock(Some(w)))))
        else Out(b, th.(pc := OnNotify(NotifyUnlock(None))))
    case NotifyUnlock(w) =>
      Out(a.(lock := Open), th.(pc := if w.Some? then OnNotify(NotifyWake(w.value)) else Idle))
    case NotifyWake(w) => Out(a.(woken := a.woken + {w}, hands := a.hands - {i}), th.(pc := Idle))
  }

  /** An idle thread schedules a runnable, tries a tick, steals, or polls its ticker. */
  function DoIdle(a: Shared, i: nat, th: Thread, c: nat): Out {
    if c == 0 then Out(a.(queued := a.queued + 1), th.(pc := OnNotify(NotifyCas)))
    else if c == 1 then
      if a.queued > 0 then Out(a.(queued := a.queued - 1), th.(pc := OnNotify(NotifyCas))) else Out(a, th)
    else if c == 2 then
      if a.queued > 0 then Out(a.(queued := a.queued - 1), th) else Out(a, th)
    else Out(a.(woken := a.woken - {Waker(i, c)}), Thread(th.id, c, OnTick(Search)))
  }

  predicate Sleeping(p: TickPc) {
    p.SleepLock? || p.SleepSwap? || p.SleepUnlock? || p.Parked?
  }

  predicate Searching(p: TickPc) {
    p.Search? || p.Stealing? || p.SearchRest? || p.Found?
  }

  function Do(a: Shared, i: nat, th: Thread, c: nat): Out {
    match th.pc
    case Idle => DoIdle(a, i, th, c)
    case OnNotify(_) => DoNotify(a, i, th)
    case OnTick(p) =>
      if Searching(p) then DoSearch(a, i, th, c)
      else if Sleeping(p) then DoSleep(a, i, th, c)
      else DoRemove(a, i, th)
  }

  function Move(s: State, move: (nat, nat)): (t: State)
    ensures |t.threads| == |s.threads|
  {
    if move.0 < |s.threads| then
      var o := Do(s.sh, move.0, s.threads[move.0], move.1);
      State(o.sh, s.threads[move.0 := o.th])
    else s
  }

  function Execute(s: State, moves: seq<(nat, nat)>): (t: State)
    ensures |t.threads| == |s.threads|
    decreases |moves|
  {
    if moves == [] then s else Execute(Move(s, moves[0]), moves[1..])
  }

  /** A new executor: the flag starts set, nobody sleeps. */
  predicate Init(s: State) {
    && s.sh == Shared(s.sh.queued, On, Roster(0, [], []), Open, {}, map[], {}, map[])
    && forall i :: 0 <= i < |s.threads| ==> s.threads[i].pc == Idle && s.threads[i].id == 0
  }
}
