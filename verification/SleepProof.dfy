/** No wake-up is lost: queued work with every ticker asleep is unreachable. */
module SleepProof {
  import opened Tally
  import opened Sleeper
  import opened SleepProtocol

  // ---------------------------------------------------------------- the invariant

  /** The id a thread's ticker holds in the sleeper list. */
  function IdOf(th: Thread): nat {
    match th.pc
    case OnTick(WakeLock(id)) => id
    case OnTick(DropLock(id)) => id
    case _ => th.id
  }

  /** Whether a thread at this point holds the lock, and whether its flag update is due. */
  function LockOf(p: Pc): Option<Flag> {
    match p
    case OnTick(SleepSwap) => Some(On)
    case OnTick(SleepUnlock(_)) => Some(Off)
    case OnTick(WakeSwap) => Some(On)
    case OnTick(WakeUnlock) => Some(Off)
    case OnTick(DropSwap(was)) => Some(was)
    case OnTick(DropUnlock(_)) => Some(Off)
    case OnNotify(NotifyUnlock(_)) => Some(Off)
    case _ => None
  }

  function HandOf(p: Pc): Option<Waker> {
    match p
    case OnNotify(NotifyUnlock(w)) => w
    case OnNotify(NotifyWake(w)) => Some(w)
    case _ => None
  }

  ghost predicate IdInv(a: Shared, i: nat, th: Thread) {
    && (IdOf(th) != 0 ==> IdOf(th) in a.owners)
    && (forall x :: x in a.owners ==> (a.owners[x] == i <==> x == IdOf(th)))
    && (th.pc.OnTick? && (th.pc.tick.WakeLock? || th.pc.tick.DropLock?) ==> IdOf(th) != 0)
    && (th.id != 0 ==> th.pc.OnTick? && (Searching(th.pc.tick) || Sleeping(th.pc.tick)))
  }

  predicate LockInv(a: Shared, i: nat, th: Thread) {
    && (LockOf(th.pc).Some? ==> a.lock == Held(i, LockOf(th.pc).value))
    && (a.lock.Held? && a.lock.holder == i ==> LockOf(th.pc) == Some(a.lock.urgent))
  }

  predicate HandInv(a: Shared, i: nat, th: Thread) {
    && (i in a.window <==> th.pc == OnNotify(NotifyLock))
    && (i in a.hands <==> HandOf(th.pc).Some?)
    && (i in a.hands ==> HandOf(th.pc) == Some(a.hands[i]))
  }

  /** A parked ticker is listed with the waker of its latest poll, or that waker has
      been called or is in the hands of a thread about to call it. */
  ghost predicate ParkInv(a: Shared, i: nat, th: Thread) {
    th.pc == OnTick(Parked) || th.pc == OnTick(SleepUnlock(Off)) ==>
      var w := Waker(i, th.poll);
      th.id != 0 && ((th.id, w) in a.roster.wakers || w in a.woken || w in a.hands.Values)
  }

  ghost predicate ThreadInv(a: Shared, i: nat, th: Thread) {
    IdInv(a, i, th) && LockInv(a, i, th) && HandInv(a, i, th) && ParkInv(a, i, th)
  }

  /** While the flag is set, nobody sleeps, or somebody was notified and has not
      searched, or a notifier is about to pop, or a flag update is due. */
  ghost predicate FlagInv(a: Shared) {
    a.notified.On? ==> IsNotified(a.roster) || a.window != {} || (a.lock.Held? && a.lock.urgent.On?)
  }

  ghost predicate SharedInv(a: Shared, n: nat) {
    && WellKept(a.roster, a.owners) && FlagInv(a)
    && (forall x :: x in a.owners ==> x > 0 && a.owners[x] < n)
    && (forall j :: j in a.window ==> j < n)
    && (forall j :: j in a.hands ==> j < n)
    && (a.lock.Held? ==> a.lock.holder < n)
  }

  /** A thread that will search the queues again, or notify, before it rests. */
  predicate Committed(a: Shared, th: Thread) {
    match th.pc
    case Idle => false
    case OnNotify(p) => p.NotifyCas? || p.NotifyLock?
    case OnTick(p) =>
      match p
      case SearchRest => !Listed(a.roster, th.id)
      case SleepLock => !Listed(a.roster, th.id)
      case SleepUnlock(again) => again.On? || !Listed(a.roster, th.id)
      case Parked => !Listed(a.roster, th.id)
      case DropLock(id) => !Listed(a.roster, id)
      case DropSwap(was) => was.On?
      case DropUnlock(was) => was.On?
      case _ => true
  }

  ghost predicate SomeoneCommitted(s: State) {
    exists i :: 0 <= i < |s.threads| && Committed(s.sh, s.threads[i])
  }

  /** The safety property: queued work and a registered ticker imply a commitment. */
  ghost predicate NoneForgotten(s: State) {
    s.sh.queued > 0 && s.sh.owners != map[] ==> SomeoneCommitted(s)
  }

  ghost predicate Structure(s: State) {
    && SharedInv(s.sh, |s.threads|)
    && forall i: nat :: i < |s.threads| ==> ThreadInv(s.sh, i, s.threads[i])
  }

  ghost predicate Inv(s: State) { Structure(s) && NoneForgotten(s) }

  // ---------------------------------------------------------------- what a step leaves to others

  ghost predicate Rely(a: Shared, b: Shared, i: nat) {
    && (forall x :: x in b.owners && b.owners[x] != i ==> x in a.owners && a.owners[x] == b.owners[x])
    && (forall x :: x in a.owners && a.owners[x] != i ==> x in b.owners && b.owners[x] == a.owners[x])
    && (forall j :: j != i ==> (j in b.window <==> j in a.window))
    && (forall j :: j != i ==> (j in b.hands <==> j in a.hands))
    && (forall j :: j != i && j in a.hands ==> b.hands[j] == a.hands[j])
    && (a.lock.Held? && a.lock.holder != i ==> b.lock == a.lock)
    && (b.lock.Held? && b.lock.holder != i ==> b.lock == a.lock)
    && (forall w: Waker :: w.ticker != i && w in a.woken ==> w in b.woken)
  }

  /** The lists before and after, seen by the holder of an id other than thread `i`:
      entries leave only into a hand, and none comes. */
  ghost predicate ListRely(a: Shared, b: Shared, i: nat) {
    && (forall e :: e in a.roster.wakers && e.0 in a.owners && a.owners[e.0] != i ==>
          e in b.roster.wakers || e.1 in b.hands.Values)
    && (forall x :: x in a.owners && a.owners[x] != i && Listed(b.roster, x) ==> Listed(a.roster, x))
    && (forall w: Waker :: w.ticker != i && w in a.hands.Values ==> w in b.hands.Values || w in b.woken)
  }

  lemma OthersKeep(a: Shared, b: Shared, i: nat, j: nat, th: Thread)
    requires Rely(a, b, i) && ListRely(a, b, i) && i != j && ThreadInv(a, j, th)
    requires WellKept(b.roster, b.owners) && 0 !in b.owners
    ensures ThreadInv(b, j, th)
    ensures Committed(a, th) ==> Committed(b, th)
  {
  }

  // ---------------------------------------------------------------- one step

  /** The new shared state is right, and what the others rely on is kept. */
  ghost predicate Fine(a: Shared, b: Shared, n: nat, i: nat) {
    SharedInv(b, n) && Rely(a, b, i) && ListRely(a, b, i)
  }

  ghost predicate Good(a: Shared, n: nat, i: nat, o: Out) {
    Fine(a, o.sh, n, i) && ThreadInv(o.sh, i, o.th)
  }

  /** Steps that leave the sleeper list, its owners, the flag and the lock alone. */
  lemma Quiet(a: Shared, n: nat, i: nat, th: Thread, b: Shared, th': Thread)
    requires i < n && SharedInv(a, n) && ThreadInv(a, i, th) && ThreadInv(a, i, th')
    requires b == a.(queued := b.queued)
    ensures Good(a, n, i, Out(b, th'))
  {
  }

  lemma SearchStep(a: Shared, n: nat, i: nat, th: Thread, c: nat)
    requires i < n && SharedInv(a, n) && ThreadInv(a, i, th) && th.pc.OnTick? && Searching(th.pc.tick)
    ensures Good(a, n, i, Do(a, i, th, c))
  {
    var o := Do(a, i, th, c);
    Quiet(a, n, i, th, o.sh, o.th);
  }

  /** Polling a ticker: its waker has not been called in this poll. */
  lemma PollStep(a: Shared, n: nat, i: nat, th: Thread, c: nat)
    requires i < n && SharedInv(a, n) && ThreadInv(a, i, th)
    requires th.pc == Idle || th.pc == OnTick(Parked)
    ensures Good(a, n, i, Out(a.(woken := a.woken - {Waker(i, c)}), Thread(th.id, c, OnTick(Search))))
  {
  }

  lemma IdleStep(a: Shared, n: nat, i: nat, th: Thread, c: nat)
    requires i < n && SharedInv(a, n) && ThreadInv(a, i, th) && th.pc.Idle?
    ensures Good(a, n, i, Do(a, i, th, c))
  {
    var o := Do(a, i, th, c);
    if c > 2 {
      PollStep(a, n, i, th, c);
    } else {
      Quiet(a, n, i, th, o.sh, o.th);
    }
  }

  lemma InsertStep(a: Shared, n: nat, i: nat, th: Thread, c: nat)
    requires i < n && SharedInv(a, n) && ThreadInv(a, i, th)
    requires th.pc == OnTick(SleepLock) && a.lock.Open? && th.id == 0
    ensures Good(a, n, i, Do(a, i, th, c))
  {
    InsertKeeps(a.roster, a.owners, Waker(i, th.poll));
    var o := Do(a, i, th, c);
    assert o.sh.roster.wakers == a.roster.wakers + [(NextId(a.roster), Waker(i, th.poll))];
  }

  function Refreshed(a: Shared, i: nat, th: Thread, urgent: Flag): Shared {
    a.(roster := Updated(a.roster, th.id, Waker(i, th.poll)), lock := Held(i, urgent))
  }

  lemma UpdateListed(a: Shared, n: nat, i: nat, th: Thread, c: nat)
    requires i < n && SharedInv(a, n) && ThreadInv(a, i, th)
    requires th.pc == OnTick(SleepLock) && a.lock.Open? && th.id != 0 && Listed(a.roster, th.id)
    ensures Good(a, n, i, Do(a, i, th, c))
  {
    UpdateShared(a, n, i, th, Off);
    UpdateThread(a, i, th, Off);
  }

  lemma UpdateUnlisted(a: Shared, n: nat, i: nat, th: Thread, c: nat)
    requires i < n && SharedInv(a, n) && ThreadInv(a, i, th)
    requires th.pc == OnTick(SleepLock) && a.lock.Open? && th.id != 0 && !Listed(a.roster, th.id)
    ensures Good(a, n, i, Do(a, i, th, c))
  {
    UpdateShared(a, n, i, th, On);
    UpdateThread(a, i, th, On);
  }

  lemma UpdateShared(a: Shared, n: nat, i: nat, th: Thread, urgent: Flag)
    requires i < n && SharedInv(a, n) && a.lock.Open? && th.id in a.owners && a.owners[th.id] == i
    requires urgent.On? || Listed(a.roster, th.id)
    ensures var b := Refreshed(a, i, th, urgent); Fine(a, b, n, i)
  {
    UpdateKeeps(a.roster, a.owners, th.id, Waker(i, th.poll));
    ListedByEntry(a.roster, Updated(a.roster, th.id, Waker(i, th.poll)), th.id);
  }

  lemma UpdateThread(a: Shared, i: nat, th: Thread, urgent: Flag)
    requires ThreadInv(a, i, th) && th.pc == OnTick(SleepLock) && th.id != 0 && WellKept(a.roster, a.owners)
    requires a.lock.Open?
    ensures ThreadInv(Refreshed(a, i, th, urgent), i, At(th, if urgent.On? then SleepSwap else SleepUnlock(Off)))
  {
    UpdateKeeps(a.roster, a.owners, th.id, Waker(i, th.poll));
  }

  /** Ids other than `id` stay listed or unlisted if their entries do. */
  lemma ListedByEntry(r: Roster, s: Roster, id: nat)
    requires forall e: (nat, Waker) :: e.0 != id ==> (e in s.wakers <==> e in r.wakers)
    ensures forall x: nat :: x != id ==> (Listed(s, x) <==> Listed(r, x))
  {
    forall x: nat | x != id
      ensures Listed(s, x) <==> Listed(r, x)
    {
      if Listed(s, x) {
        var k :| 0 <= k < |s.wakers| && s.wakers[k].0 == x;
        assert s.wakers[k] in r.wakers;
      }
      if Listed(r, x) {
        var k :| 0 <= k < |r.wakers| && r.wakers[k].0 == x;
        assert r.wakers[k] in s.wakers;
      }
    }
  }

  /** Bringing the flag up to date with the list. */
  function Swapped(a: Shared, i: nat): Shared {
    a.(notified := Flagged(IsNotified(a.roster)), lock := Held(i, Off))
  }

  lemma SwapShared(a: Shared, n: nat, i: nat)
    requires i < n && SharedInv(a, n) && a.lock.Held? && a.lock.holder == i
    ensures Fine(a, Swapped(a, i), n, i)
  {
  }

  lemma SwapThread(a: Shared, i: nat, th: Thread, p: TickPc)
    requires ThreadInv(a, i, th) && th.pc.OnTick?
    requires (th.pc.tick.SleepSwap? && p == SleepUnlock(On)) || (th.pc.tick.WakeSwap? && p == WakeUnlock)
          || (th.pc.tick.DropSwap? && p == DropUnlock(th.pc.tick.was))
    ensures ThreadInv(Swapped(a, i), i, At(th, p))
  {
  }

  lemma SwapStep(a: Shared, n: nat, i: nat, th: Thread, c: nat)
    requires i < n && SharedInv(a, n) && ThreadInv(a, i, th) && th.pc.OnTick?
    requires var p := th.pc.tick; p.SleepSwap? || p.WakeSwap? || p.DropSwap?
    ensures Good(a, n, i, Do(a, i, th, c))
  {
    SwapShared(a, n, i);
    SwapThread(a, i, th, Do(a, i, th, c).th.pc.tick);
  }

  /** Releasing the lock. */
  lemma UnlockShared(a: Shared, n: nat, i: nat)
    requires SharedInv(a, n) && a.lock == Held(i, Off)
    ensures var b := a.(lock := Open); Fine(a, b, n, i)
  {
  }

  lemma UnlockThread(a: Shared, i: nat, th: Thread, c: nat)
    requires ThreadInv(a, i, th) && th.pc.OnTick?
    requires var p := th.pc.tick; p.SleepUnlock? || p.WakeUnlock? || p.DropUnlock?
    ensures var o := Do(a, i, th, c); o.sh == a.(lock := Open) && ThreadInv(o.sh, i, o.th)
  {
  }

  lemma UnlockStep(a: Shared, n: nat, i: nat, th: Thread, c: nat)
    requires i < n && SharedInv(a, n) && ThreadInv(a, i, th) && th.pc.OnTick?
    requires var p := th.pc.tick; p.SleepUnlock? || p.WakeUnlock? || p.DropUnlock?
    ensures Good(a, n, i, Do(a, i, th, c))
  {
    UnlockShared(a, n, i);
    UnlockThread(a, i, th, c);
  }

  /** Taking an id off the list, by its owner. */
  lemma RemoveRely(a: Shared, n: nat, i: nat, id: nat, urgent: Flag)
    requires SharedInv(a, n) && id in a.owners && a.owners[id] == i && a.lock.Open? && i < n
    requires urgent.On? || Listed(a.roster, id)
    ensures a.roster.count > 0
    ensures var b := TakeOff(a, i, id, urgent);
            Fine(a, b, n, i)
  {
    RemoveKeeps(a.roster, a.owners, id);
    ListedByEntry(a.roster, Removed(a.roster, id), id);
  }

  lemma OffTheList(a: Shared, i: nat, th: Thread, urgent: Flag, p: TickPc)
    requires ThreadInv(a, i, th) && th.pc.OnTick? && (th.pc.tick.WakeLock? || th.pc.tick.DropLock?)
    requires p == WakeSwap || p == DropSwap(urgent)
    requires LockOf(OnTick(p)) == Some(urgent) && 0 !in a.owners && a.roster.count > 0
    ensures ThreadInv(TakeOff(a, i, th.pc.tick.id, urgent), i, At(th, p))
  {
  }

  lemma HoldsId(a: Shared, n: nat, i: nat, th: Thread)
    requires SharedInv(a, n) && IdInv(a, i, th) && th.pc.OnTick? && (th.pc.tick.WakeLock? || th.pc.tick.DropLock?)
    ensures th.pc.tick.id in a.owners && a.owners[th.pc.tick.id] == i && 0 !in a.owners
  {
  }

  /** What `wake` and the drop of a ticker do with the lock taken. */
  lemma WakeEffect(a: Shared, i: nat, th: Thread)
    requires th.pc.OnTick? && th.pc.tick.WakeLock? && a.lock.Open? && a.roster.count > 0
    ensures DoRemove(a, i, th) == Out(TakeOff(a, i, th.pc.tick.id, On), At(th, WakeSwap))
  {
  }

  lemma DropEffect(a: Shared, i: nat, th: Thread, urgent: Flag)
    requires th.pc.OnTick? && th.pc.tick.DropLock? && a.lock.Open? && a.roster.count > 0
    requires urgent == Flagged(!Listed(a.roster, th.pc.tick.id))
    ensures DoRemove(a, i, th) == Out(TakeOff(a, i, th.pc.tick.id, urgent), At(th, DropSwap(urgent)))
  {
  }

  lemma TakeOffShared(a: Shared, n: nat, i: nat, th: Thread, urgent: Flag)
    requires i < n && SharedInv(a, n) && IdInv(a, i, th) && th.pc.OnTick? && a.lock.Open?
    requires th.pc.tick.WakeLock? || th.pc.tick.DropLock?
    requires urgent.On? || Listed(a.roster, th.pc.tick.id)
    ensures 0 !in a.owners && a.roster.count > 0 && Fine(a, TakeOff(a, i, th.pc.tick.id, urgent), n, i)
  {
    HoldsId(a, n, i, th);
    RemoveRely(a, n, i, th.pc.tick.id, urgent);
  }

  lemma TakeOffEnds(a: Shared, n: nat, i: nat, th: Thread, o: Out, urgent: Flag, p: TickPc)
    requires ThreadInv(a, i, th) && th.pc.OnTick? && (th.pc.tick.WakeLock? || th.pc.tick.DropLock?)
    requires (p == WakeSwap && urgent.On?) || p == DropSwap(urgent)
    requires 0 !in a.owners && a.roster.count > 0
    requires o == Out(TakeOff(a, i, th.pc.tick.id, urgent), At(th, p)) && Fine(a, o.sh, n, i)
    ensures Good(a, n, i, o)
  {
    OffTheList(a, i, th, urgent, p);
  }

  lemma WakeTakesOff(a: Shared, n: nat, i: nat, th: Thread, c: nat)
    requires i < n && SharedInv(a, n) && ThreadInv(a, i, th) && th.pc.OnTick? && th.pc.tick.WakeLock? && a.lock.Open?
    ensures Good(a, n, i, Do(a, i, th, c))
  {
    TakeOffShared(a, n, i, th, On);
    WakeEffect(a, i, th);
    TakeOffEnds(a, n, i, th, Do(a, i, th, c), On, WakeSwap);
  }

  lemma DropListed(a: Shared, n: nat, i: nat, th: Thread, c: nat)
    requires i < n && SharedInv(a, n) && ThreadInv(a, i, th) && th.pc.OnTick? && th.pc.tick.DropLock? && a.lock.Open?
    requires Listed(a.roster, th.pc.tick.id)
    ensures Good(a, n, i, Do(a, i, th, c))
  {
    TakeOffShared(a, n, i, th, Off);
    DropEffect(a, i, th, Off);
    TakeOffEnds(a, n, i, th, Do(a, i, th, c), Off, DropSwap(Off));
  }

  lemma DropUnlisted(a: Shared, n: nat, i: nat, th: Thread, c: nat)
    requires i < n && SharedInv(a, n) && ThreadInv(a, i, th) && th.pc.OnTick? && th.pc.tick.DropLock? && a.lock.Open?
    requires !Listed(a.roster, th.pc.tick.id)
    ensures Good(a, n, i, Do(a, i, th, c))
  {
    TakeOffShared(a, n, i, th, On);
    DropEffect(a, i, th, On);
    TakeOffEnds(a, n, i, th, Do(a, i, th, c), On, DropSwap(On));
  }

  /** A notifier with the lock pops a waker, or finds that somebody was notified already. */
  lemma PopStep(a: Shared, n: nat, i: nat, th: Thread, c: nat)
    requires i < n && SharedInv(a, n) && ThreadInv(a, i, th) && th.pc == OnNotify(NotifyLock) && a.lock.Open?
    ensures Good(a, n, i, Do(a, i, th, c))
    ensures IsNotified(Do(a, i, th, c).sh.roster)
  {
    NotifyKeeps(a.roster, a.owners);
    ListedBound(a.roster, a.owners);
    var o := Do(a, i, th, c);
    assert IsNotified(o.sh.roster);
    assert i !in a.hands;
    if Popped(a.roster).Some? {
      assert o.sh.hands[i] in o.sh.hands.Values;
    }
  }

  function Woke(a: Shared, i: nat, w: Waker): Shared {
    a.(woken := a.woken + {w}, hands := a.hands - {i})
  }

  lemma WakeShared(a: Shared, n: nat, i: nat, w: Waker)
    requires SharedInv(a, n) && i in a.hands && a.hands[i] == w
    ensures var b := Woke(a, i, w); Fine(a, b, n, i)
  {
  }

  lemma WakeThread(a: Shared, i: nat, th: Thread)
    requires ThreadInv(a, i, th) && th.pc.OnNotify? && th.pc.notify.NotifyWake?
    ensures ThreadInv(Woke(a, i, th.pc.notify.w), i, th.(pc := Idle))
  {
  }

  lemma WakeStep(a: Shared, n: nat, i: nat, th: Thread, c: nat)
    requires i < n && SharedInv(a, n) && ThreadInv(a, i, th) && th.pc.OnNotify? && th.pc.notify.NotifyWake?
    ensures Good(a, n, i, Do(a, i, th, c))
  {
    WakeShared(a, n, i, th.pc.notify.w);
    WakeThread(a, i, th);
  }

  lemma NotifyStep(a: Shared, n: nat, i: nat, th: Thread, c: nat)
    requires i < n && SharedInv(a, n) && ThreadInv(a, i, th) && th.pc.OnNotify?
    requires th.pc.notify.NotifyCas? || th.pc.notify.NotifyUnlock?
    ensures Good(a, n, i, Do(a, i, th, c))
  {
    if th.pc.notify.NotifyUnlock? {
      UnlockShared(a, n, i);
      NotifyUnlocks(a, i, th, c);
    } else if a.notified.On? {
      Quiet(a, n, i, th, a, th.(pc := Idle));
    } else {
      NotifySets(a, n, i, th, c);
    }
  }

  lemma NotifyUnlocks(a: Shared, i: nat, th: Thread, c: nat)
    requires ThreadInv(a, i, th) && th.pc.OnNotify? && th.pc.notify.NotifyUnlock?
    ensures var o := Do(a, i, th, c); o.sh == a.(lock := Open) && ThreadInv(o.sh, i, o.th)
  {
  }

  lemma NotifySets(a: Shared, n: nat, i: nat, th: Thread, c: nat)
    requires i < n && SharedInv(a, n) && ThreadInv(a, i, th) && th.pc == OnNotify(NotifyCas) && !a.notified.On?
    ensures Good(a, n, i, Do(a, i, th, c))
  {
  }

  lemma Step(a: Shared, n: nat, i: nat, th: Thread, c: nat)
    requires i < n && SharedInv(a, n) && ThreadInv(a, i, th)
    ensures Good(a, n, i, Do(a, i, th, c))
  {
    if th.pc.Idle? {
      IdleStep(a, n, i, th, c);
    } else if th.pc.OnNotify? {
      if th.pc.notify.NotifyLock? && a.lock.Open? {
        PopStep(a, n, i, th, c);
      } else if th.pc.notify.NotifyLock? {
        Quiet(a, n, i, th, a, th);
      } else if th.pc.notify.NotifyWake? {
        WakeStep(a, n, i, th, c);
      } else {
        NotifyStep(a, n, i, th, c);
      }
    } else if Searching(th.pc.tick) {
      SearchStep(a, n, i, th, c);
    } else if th.pc.tick.SleepLock? && a.lock.Open? {
      if th.id == 0 {
        InsertStep(a, n, i, th, c);
      } else if Listed(a.roster, th.id) {
        UpdateListed(a, n, i, th, c);
      } else {
        UpdateUnlisted(a, n, i, th, c);
      }
    } else if th.pc.tick.Parked? && c != 0 {
      PollStep(a, n, i, th, c);
    } else if th.pc.tick.SleepSwap? || th.pc.tick.WakeSwap? || th.pc.tick.DropSwap? {
      SwapStep(a, n, i, th, c);
    } else if th.pc.tick.SleepUnlock? || th.pc.tick.WakeUnlock? || th.pc.tick.DropUnlock? {
      UnlockStep(a, n, i, th, c);
    } else if th.pc.tick.WakeLock? && a.lock.Open? {
      WakeTakesOff(a, n, i, th, c);
    } else if th.pc.tick.DropLock? && a.lock.Open? {
      if Listed(a.roster, th.pc.tick.id) {
        DropListed(a, n, i, th, c);
      } else {
        DropUnlisted(a, n, i, th, c);
      }
    } else {
      var o := Do(a, i, th, c);
      Quiet(a, n, i, th, o.sh, o.th);
    }
  }

  // ---------------------------------------------------------------- commitments

  /** A registered ticker that is not listed is committed, wherever it is. */
  lemma UnlistedCommits(s: State, id: nat)
    requires Structure(s) && id in s.sh.owners && !Listed(s.sh.roster, id)
    ensures SomeoneCommitted(s)
  {
    var i := s.sh.owners[id];
    assert ThreadInv(s.sh, i, s.threads[i]);
    assert Committed(s.sh, s.threads[i]);
  }

  /** If the flag is set while a ticker is registered, someone is committed. */
  lemma FlagCommits(s: State)
    requires Structure(s) && s.sh.notified.On? && s.sh.owners != map[]
    ensures SomeoneCommitted(s)
  {
    var a := s.sh;
    if a.window != {} {
      var j :| j in a.window;
      assert ThreadInv(a, j, s.threads[j]);
      assert Committed(a, s.threads[j]);
    } else if a.lock.Held? && a.lock.urgent.On? {
      var j := a.lock.holder;
      assert ThreadInv(a, j, s.threads[j]);
      assert Committed(a, s.threads[j]);
    } else {
      assert |a.owners| != 0;
      var id := SomeUnlisted(a.roster, a.owners);
      UnlistedCommits(s, id);
    }
  }

  /** The mover gives up its commitment only by finding the queue empty, by finding
      the flag set, or by leaving some registered ticker notified. */
  lemma GivesUp(a: Shared, n: nat, i: nat, th: Thread, c: nat)
    requires i < n && SharedInv(a, n) && ThreadInv(a, i, th) && Committed(a, th)
    requires var o := Do(a, i, th, c); !Committed(o.sh, o.th) && o.sh.queued > 0
    ensures var o := Do(a, i, th, c); o.sh.notified.On? || IsNotified(o.sh.roster)
  {
    var o := Do(a, i, th, c);
    if th.pc == OnNotify(NotifyLock) && a.lock.Open? {
      PopStep(a, n, i, th, c);
    } else if th.pc.OnTick? {
      if th.pc.tick.SleepLock? && a.lock.Open? && th.id != 0 {
        UpdateKeeps(a.roster, a.owners, th.id, Waker(i, th.poll));
      } else if th.id == 0 {
        assert !Listed(a.roster, 0);
      }
    }
  }

  lemma MoveKeepsStructure(s: State, move: (nat, nat))
    requires Structure(s)
    ensures Structure(Move(s, move))
  {
    if move.0 < |s.threads| {
      var t := Move(s, move);
      Step(s.sh, |s.threads|, move.0, s.threads[move.0], move.1);
      forall j: nat | j < |t.threads| ensures ThreadInv(t.sh, j, t.threads[j]) {
        if j != move.0 {
          OthersKeep(s.sh, t.sh, move.0, j, s.threads[j]);
        }
      }
    }
  }

  /** Work or a sleeper appearing leaves the mover committed. */
  lemma Appears(a: Shared, i: nat, th: Thread, c: nat)
    requires a.queued == 0 || a.owners == map[]
    ensures var o := Do(a, i, th, c); o.sh.queued > 0 && o.sh.owners != map[] ==> Committed(o.sh, o.th)
  {
  }

  lemma MoveKeepsNone(s: State, move: (nat, nat))
    requires Inv(s)
    ensures NoneForgotten(Move(s, move))
  {
    var t := Move(s, move);
    MoveKeepsStructure(s, move);
    var (i, c) := move;
    if t.sh.queued > 0 && t.sh.owners != map[] && i < |s.threads| && !Committed(t.sh, t.threads[i]) {
      if s.sh.queued == 0 || s.sh.owners == map[] {
        Appears(s.sh, i, s.threads[i], c);
      }
      var j :| 0 <= j < |s.threads| && Committed(s.sh, s.threads[j]);
      if j != i {
        Step(s.sh, |s.threads|, i, s.threads[i], c);
        OthersKeep(s.sh, t.sh, i, j, s.threads[j]);
        assert Committed(t.sh, t.threads[j]);
      } else {
        GivesUp(s.sh, |s.threads|, i, s.threads[i], c);
        if t.sh.notified.On? {
          FlagCommits(t);
        } else {
          assert |t.sh.owners| != 0;
          var id := SomeUnlisted(t.sh.roster, t.sh.owners);
          UnlistedCommits(t, id);
        }
      }
    }
  }

  lemma {:induction false} RunKeeps(s: State, moves: seq<(nat, nat)>)
    requires Inv(s)
    ensures Inv(Execute(s, moves))
    decreases |moves|
  {
    if moves != [] {
      MoveKeepsStructure(s, moves[0]);
      MoveKeepsNone(s, moves[0]);
      RunKeeps(Move(s, moves[0]), moves[1..]);
    }
  }

  // ---------------------------------------------------------------- theorems

  lemma Reachable(s: State, moves: seq<(nat, nat)>)
    requires Init(s)
    ensures Inv(Execute(s, moves))
  {
    RunKeeps(s, moves);
  }

  /** Whenever work is queued and a ticker is registered as asleep, some thread will
      notify or some ticker will search again. */
  lemma WorkIsNeverForgotten(s: State, moves: seq<(nat, nat)>)
    requires Init(s)
    ensures var t := Execute(s, moves);
            t.sh.queued > 0 && t.sh.roster.count > 0 ==>
              exists i :: 0 <= i < |t.threads| && Committed(t.sh, t.threads[i])
  {
    Reachable(s, moves);
  }

  /** A notifier that finds the flag set may leave: if a ticker is registered, some other
      thread is committed once it has left. */
  lemma NotifierMayLeave(s: State, moves: seq<(nat, nat)>, i: nat, c: nat)
    requires Init(s) && i < |s.threads| && Execute(s, moves).threads[i].pc == OnNotify(NotifyCas)
    requires Execute(s, moves).sh.notified.On? && Execute(s, moves).sh.roster.count > 0
    ensures var u := Move(Execute(s, moves), (i, c));
            && u.threads[i].pc == Idle
            && exists j :: 0 <= j < |u.threads| && j != i && Committed(u.sh, u.threads[j])
  {
    Reachable(s, moves);
    var t := Execute(s, moves);
    var u := Move(t, (i, c));
    MoveKeepsStructure(t, (i, c));
    FlagCommits(u);
    var j :| 0 <= j < |u.threads| && Committed(u.sh, u.threads[j]);
    assert !Committed(u.sh, u.threads[i]);
  }

  /** A thread at rest: outside every call, or parked with its latest waker not called. */
  predicate AtRest(a: Shared, i: nat, th: Thread) {
    th.pc == Idle || (th.pc == OnTick(Parked) && Waker(i, th.poll) !in a.woken)
  }

  /** With everyone at rest and a ticker parked, the global queue is empty. */
  lemma NoLostWakeup(s: State, moves: seq<(nat, nat)>)
    requires Init(s)
    ensures var t := Execute(s, moves);
            && (forall i: nat :: i < |t.threads| ==> AtRest(t.sh, i, t.threads[i]))
            && (exists i :: 0 <= i < |t.threads| && t.threads[i].pc == OnTick(Parked))
            ==> t.sh.queued == 0
  {
    Reachable(s, moves);
    var t := Execute(s, moves);
    if t.sh.queued > 0 && (forall i: nat :: i < |t.threads| ==> AtRest(t.sh, i, t.threads[i])) {
      if p :| 0 <= p < |t.threads| && t.threads[p].pc == OnTick(Parked) {
        assert ThreadInv(t.sh, p, t.threads[p]);
        assert t.threads[p].id in t.sh.owners;
        var j :| 0 <= j < |t.threads| && Committed(t.sh, t.threads[j]);
        SleeperHasCaller(t, j);
      }
    }
  }

  /** An unlisted parked ticker whose waker has not been called: someone holds it. */
  lemma SleeperHasCaller(t: State, j: nat)
    requires Structure(t) && j < |t.threads| && Committed(t.sh, t.threads[j]) && AtRest(t.sh, j, t.threads[j])
    ensures exists k :: 0 <= k < |t.threads| && t.threads[k].pc.OnNotify?
  {
    assert ThreadInv(t.sh, j, t.threads[j]);
    var w := Waker(j, t.threads[j].poll);
    assert w in t.sh.hands.Values;
    var k :| k in t.sh.hands && t.sh.hands[k] == w;
    assert ThreadInv(t.sh, k, t.threads[k]);
  }

  /** Ids are never shared: two registered tickers have different ids. */
  lemma IdsAreUnique(s: State, moves: seq<(nat, nat)>, i: nat, j: nat)
    requires Init(s) && i < |s.threads| && j < |s.threads| && i != j
    ensures var t := Execute(s, moves);
            IdOf(t.threads[i]) != 0 ==> IdOf(t.threads[i]) != IdOf(t.threads[j])
  {
    Reachable(s, moves);
    var t := Execute(s, moves);
    assert ThreadInv(t.sh, i, t.threads[i]) && ThreadInv(t.sh, j, t.threads[j]);
  }
}
