/** Whole calls of the sleep protocol: a ticker that finds nothing goes to sleep on the list,
    and scheduling something wakes one of those that sleep. */
module SleepCalls {
  import opened Tally
  import opened Solo
  import opened Sleeper
  import opened SleepProtocol
  import opened SleepProof

  function Alone(i: nat, c: nat): Out -> Out { (o: Out) => Do(o.sh, i, o.th, c) }

  lemma {:induction false} AloneIsRun(s: State, i: nat, c: nat, n: nat)
    requires i < |s.threads|
    ensures var o := Iterate(Alone(i, c), Out(s.sh, s.threads[i]), n);
            Execute(s, Own(i, c, n)) == State(o.sh, s.threads[i := o.th])
    decreases n
  {
    if n > 0 {
      assert Own(i, c, n)[1..] == Own(i, c, n - 1);
      AloneIsRun(Move(s, (i, c)), i, c, n - 1);
    }
  }

  ghost predicate Runs(i: nat, c: nat, a: Shared, th: Thread, b: Shared, uh: Thread) {
    Leads(Alone(i, c), Out(a, th), Out(b, uh))
  }

  lemma Stays(i: nat, c: nat, a: Shared, th: Thread)
    ensures Runs(i, c, a, th, a, th)
  {
    Arrived(Alone(i, c), Out(a, th));
  }

  lemma Ahead(i: nat, c: nat, a: Shared, th: Thread, b: Shared, uh: Thread)
    requires var o := Do(a, i, th, c); Runs(i, c, o.sh, o.th, b, uh)
    ensures Runs(i, c, a, th, b, uh)
  {
    Then(Alone(i, c), Out(a, th), Out(b, uh));
  }

  lemma RunIs(s: State, i: nat, c: nat, b: Shared, uh: Thread) returns (n: nat)
    requires i < |s.threads| && Runs(i, c, s.sh, s.threads[i], b, uh)
    ensures Execute(s, Own(i, c, n)) == State(b, s.threads[i := uh])
  {
    n :| Iterate(Alone(i, c), Out(s.sh, s.threads[i]), n) == Out(b, uh);
    AloneIsRun(s, i, c, n);
  }

  // ---------------------------------------------------------------- everybody rests

  ghost predicate AllRest(s: State) { forall i: nat :: i < |s.threads| ==> AtRest(s.sh, i, s.threads[i]) }

  lemma RestHasNoCalls(s: State, j: nat)
    requires Structure(s) && AllRest(s)
    ensures j !in s.sh.window && j !in s.sh.hands && !(s.sh.lock.Held? && s.sh.lock.holder == j)
  {
    if j < |s.threads| {
      assert ThreadInv(s.sh, j, s.threads[j]) && AtRest(s.sh, j, s.threads[j]);
    }
  }

  lemma RestIsOpen(s: State)
    requires Structure(s) && AllRest(s)
    ensures s.sh.lock.Open? && s.sh.window == {} && s.sh.hands == map[]
  {
    forall j: nat ensures j !in s.sh.window && j !in s.sh.hands {
      RestHasNoCalls(s, j);
    }
    if s.sh.lock.Held? {
      RestHasNoCalls(s, s.sh.lock.holder);
    }
  }

  /** A ticker that rests is listed with its latest waker. */
  lemma RestIsListed(s: State, id: nat)
    requires Structure(s) && AllRest(s) && id in s.sh.owners
    ensures var j := s.sh.owners[id];
            && j < |s.threads| && s.threads[j].pc == OnTick(Parked)
            && (id, Waker(j, s.threads[j].poll)) in s.sh.roster.wakers && Listed(s.sh.roster, id)
  {
    var j := s.sh.owners[id];
    RestIsOpen(s);
    assert ThreadInv(s.sh, j, s.threads[j]) && AtRest(s.sh, j, s.threads[j]);
    var k :| 0 <= k < |s.sh.roster.wakers| && s.sh.roster.wakers[k] == (id, Waker(j, s.threads[j].poll));
    assert s.sh.roster.wakers[k].0 == id;
  }

  /** With everybody at rest and somebody asleep, nobody has been notified. */
  lemma RestIsUnnotified(s: State)
    requires Structure(s) && AllRest(s) && s.sh.roster.count > 0
    ensures !IsNotified(s.sh.roster) && s.sh.notified.Off?
  {
    RestIsOpen(s);
    if s.sh.roster.count > |s.sh.roster.wakers| {
      var id := SomeUnlisted(s.sh.roster, s.sh.owners);
      RestIsListed(s, id);
    }
  }

  // ---------------------------------------------------------------- scheduling alone

  /** A notifier with the flag off and the lock free calls the waker listed last. */
  lemma NotifyRuns(i: nat, a: Shared, th: Thread) returns (b: Shared)
    requires th.pc == OnNotify(NotifyCas) && a.notified.Off? && a.lock.Open? && Popped(a.roster).Some?
    ensures Runs(i, 0, a, th, b, th.(pc := Idle))
    ensures b.woken == a.woken + {Popped(a.roster).value.1} && b.queued == a.queued && b.lock.Open?
    ensures b.roster == Notified(a.roster) && b.notified.On?
  {
    var w := Popped(a.roster).value.1;
    var marked := Do(a, i, th, 0);
    var popped := Do(marked.sh, i, marked.th, 0);
    var unlocked := Do(popped.sh, i, popped.th, 0);
    var done := Do(unlocked.sh, i, unlocked.th, 0);
    assert unlocked.th == th.(pc := OnNotify(NotifyWake(w)));
    b := done.sh;
    Stays(i, 0, b, done.th);
    Ahead(i, 0, unlocked.sh, unlocked.th, b, done.th);
    Ahead(i, 0, popped.sh, popped.th, b, done.th);
    Ahead(i, 0, marked.sh, marked.th, b, done.th);
    Ahead(i, 0, a, th, b, done.th);
  }

  /** The ticker listed last is asleep and listed with its latest waker. */
  lemma LastIsLatest(s: State)
    requires Structure(s) && AllRest(s) && Popped(s.sh.roster).Some?
    ensures var w := Popped(s.sh.roster).value.1;
            && w.ticker < |s.threads| && s.threads[w.ticker].pc == OnTick(Parked)
            && w == Waker(w.ticker, s.threads[w.ticker].poll)
  {
    var e := Popped(s.sh.roster).value;
    var ws := s.sh.roster.wakers;
    assert ws[|ws| - 1] == e && e.0 in s.sh.owners && s.sh.owners[e.0] == e.1.ticker;
    RestIsListed(s, e.0);
    var latest := (e.0, Waker(e.1.ticker, s.threads[e.1.ticker].poll));
    var k :| 0 <= k < |ws| && ws[k] == latest;
    assert k == |ws| - 1;
  }

  /** With everybody at rest and a ticker asleep, scheduling a runnable ends with the latest
      waker of a sleeping ticker called. */
  lemma SchedulingWakes(s: State, moves: seq<(nat, nat)>, i: nat) returns (n: nat, j: nat)
    requires Init(s) && AllRest(Execute(s, moves)) && i < |s.threads| && Execute(s, moves).threads[i].pc == Idle
    requires Execute(s, moves).sh.roster.count > 0
    ensures var t := Execute(s, moves);
            var u := Execute(t, [(i, 0)] + Own(i, 0, n));
            && u.threads == t.threads && u.sh.queued == t.sh.queued + 1
            && j < |t.threads| && t.threads[j].pc == OnTick(Parked)
            && Waker(j, t.threads[j].poll) !in t.sh.woken && Waker(j, t.threads[j].poll) in u.sh.woken
  {
    Reachable(s, moves);
    var t := Execute(s, moves);
    RestIsOpen(t);
    RestIsUnnotified(t);
    PoppedUnlessNotified(t.sh.roster, t.sh.owners);
    LastIsLatest(t);
    j := Popped(t.sh.roster).value.1.ticker;
    assert AtRest(t.sh, j, t.threads[j]);
    var u := Move(t, (i, 0));
    var b := NotifyRuns(i, u.sh, u.threads[i]);
    n := RunIs(u, i, 0, b, u.threads[i].(pc := Idle));
    assert ([(i, 0)] + Own(i, 0, n))[1..] == Own(i, 0, n);
    assert u.threads[i := t.threads[i]] == t.threads;
  }

  // ---------------------------------------------------------------- ticking alone

  /** One round of a search that finds nothing. */
  lemma SearchesInVain(i: nat, c: nat, a: Shared, th: Thread, b: Shared, uh: Thread)
    requires c > 0 && th.pc == OnTick(Search) && a.queued == 0
    requires Runs(i, c, a, At(th, SleepLock), b, uh)
    ensures Runs(i, c, a, th, b, uh)
  {
    Ahead(i, c, a, At(th, SearchRest), b, uh);
    Ahead(i, c, a, th, b, uh);
  }

  /** The second call of `sleep` finds the ticker listed and lets it rest. */
  lemma Parks(i: nat, c: nat, a: Shared, th: Thread) returns (b: Shared)
    requires th.pc == OnTick(SleepLock) && th.id != 0 && Listed(a.roster, th.id) && a.lock.Open?
    ensures Runs(i, c, a, th, b, At(th, Parked))
    ensures b == a.(roster := Updated(a.roster, th.id, Waker(i, th.poll)))
  {
    var o := Do(a, i, th, c);
    b := o.sh.(lock := Open);
    Stays(i, c, b, At(th, Parked));
    Ahead(i, c, o.sh, o.th, b, At(th, Parked));
    Ahead(i, c, a, th, b, At(th, Parked));
  }

  /** The first call of `sleep` lists the ticker and searches once more. */
  lemma Lists(i: nat, c: nat, a: Shared, th: Thread, b: Shared, uh: Thread)
    requires th.pc == OnTick(SleepLock) && th.id == 0 && a.lock.Open?
    requires var l := a.(roster := Inserted(a.roster, Waker(i, th.poll)), owners := a.owners[NextId(a.roster) := i],
                         notified := Flagged(IsNotified(Inserted(a.roster, Waker(i, th.poll)))));
             Runs(i, c, l, Thread(NextId(a.roster), th.poll, OnTick(Search)), b, uh)
    ensures Runs(i, c, a, th, b, uh)
  {
    var inserted := Do(a, i, th, c);
    var swapped := Do(inserted.sh, i, inserted.th, c);
    Ahead(i, c, swapped.sh, swapped.th, b, uh);
    Ahead(i, c, inserted.sh, inserted.th, b, uh);
    Ahead(i, c, a, th, b, uh);
  }

  lemma InsertedIsListed(r: Roster, owners: map<nat, nat>, w: Waker)
    requires WellKept(r, owners)
    ensures NextId(r) > 0 && Listed(Inserted(r, w), NextId(r))
  {
    FreshId(r, owners);
    assert Inserted(r, w).wakers[|r.wakers|] == (NextId(r), w);
  }

  lemma UpdatedIsListed(r: Roster, id: nat, w: Waker)
    ensures (id, w) in Updated(r, id, w).wakers
  {
    var at := if Listed(r, id) then First(r.wakers, id) else |r.wakers|;
    assert Updated(r, id, w).wakers[at] == (id, w);
  }

  lemma TickRuns(i: nat, c: nat, a: Shared, th: Thread) returns (b: Shared)
    requires c > 0 && WellKept(a.roster, a.owners) && th.pc == OnTick(Search) && th.id == 0
    requires a.queued == 0 && a.lock.Open?
    ensures var id := NextId(a.roster);
            && id > 0 && Runs(i, c, a, th, b, Thread(id, th.poll, OnTick(Parked)))
            && (id, Waker(i, th.poll)) in b.roster.wakers && b.roster.count == a.roster.count + 1
            && b.lock.Open? && b.woken == a.woken && b.queued == 0
  {
    var w := Waker(i, th.poll);
    var id := NextId(a.roster);
    InsertedIsListed(a.roster, a.owners, w);
    var l := a.(roster := Inserted(a.roster, w), owners := a.owners[id := i],
                notified := Flagged(IsNotified(Inserted(a.roster, w))));
    var again := Thread(id, th.poll, OnTick(Search));
    b := Parks(i, c, l, At(again, SleepLock));
    UpdatedIsListed(l.roster, id, w);
    SearchesInVain(i, c, l, again, b, At(again, Parked));
    Lists(i, c, a, At(th, SleepLock), b, At(again, Parked));
    SearchesInVain(i, c, a, th, b, At(again, Parked));
  }

  /** A ticker that is polled alone and finds nothing ends asleep: registered, and listed
      with the waker of this poll. */
  lemma TickSleeps(s: State, moves: seq<(nat, nat)>, i: nat, c: nat) returns (n: nat)
    requires Init(s) && i < |s.threads| && Execute(s, moves).threads[i].pc == Idle && c >= 3
    requires Execute(s, moves).sh.queued == 0 && Execute(s, moves).sh.lock.Open?
    ensures var t := Execute(s, moves);
            var u := Execute(t, [(i, c)] + Own(i, c, n));
            && |u.threads| == |t.threads| && u.threads[i].pc == OnTick(Parked) && u.threads[i].id > 0
            && (u.threads[i].id, Waker(i, c)) in u.sh.roster.wakers && Waker(i, c) !in u.sh.woken
            && u.sh.roster.count == t.sh.roster.count + 1
  {
    Reachable(s, moves);
    var t := Execute(s, moves);
    assert ThreadInv(t.sh, i, t.threads[i]);
    var u := Move(t, (i, c));
    var b := TickRuns(i, c, u.sh, u.threads[i]);
    n := RunIs(u, i, c, b, Thread(NextId(u.sh.roster), c, OnTick(Parked)));
    assert ([(i, c)] + Own(i, c, n))[1..] == Own(i, c, n);
  }

  /** A ticker that is polled while something is queued takes a runnable with its first step. */
  lemma TickTakes(s: State, i: nat, c: nat)
    requires i < |s.threads| && s.threads[i].pc == Idle && c >= 3 && s.sh.queued > 0
    ensures var u := Execute(s, [(i, c), (i, c)]);
            u.sh.queued == s.sh.queued - 1 && u.threads[i].pc == OnTick(Stealing)
  {
    var t := Move(s, (i, c));
    assert [(i, c), (i, c)][1..] == [(i, c)] && [(i, c)][1..] == [];
    assert Execute(s, [(i, c), (i, c)]) == Execute(t, [(i, c)]);
    assert Execute(t, [(i, c)]) == Execute(Move(t, (i, c)), []);
  }
}
