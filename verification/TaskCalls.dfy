/** What the calls on a task answer and bring about: the output of a completed task is
    delivered, a cancelled task is not polled anew, a woken one is scheduled. */
module TaskCalls {
  import opened Tally
  import opened Solo
  import opened TaskModel
  import opened TaskLifecycle
  import opened TaskWakes

  // ---------------------------------------------------------------- the answers of poll_task

  /** The handle has neither an output to take nor a closed task without a runner. */
  predicate Unready(w: Word) {
    !w.completed.On? && (w.closed.On? ==> w.scheduled.On? || w.running.On?)
  }

  predicate Answered(p: Pc, r: PollAnswer) { p == OnHandle(HandleBack(r)) }

  /** The answer is true, and the output is taken exactly if it is the answer. */
  predicate Truthful(a: Shared, r: PollAnswer, b: Shared) {
    && (r == IsPending ==> Unready(a.w))
    && (r == IsNone ==> a.w.closed.On?)
    && (r == IsOutput ==> a.stage == HasOutput && b.stage == Gone && a.w.closed.On?)
    && b.outputTakes == a.outputTakes + Bit(r == IsOutput)
  }

  /** A thread that uses its `NoneTail` or that is about to take the output has seen the
      task closed, or closed it. */
  predicate Closing(p: Pc) {
    match p
    case OnTake(Take(c)) => c == NoneTail || c == OutTail
    case OnTake(TakeCell(c)) => c == NoneTail || c == OutTail
    case OnTake(TakeClear(c, _)) => c == NoneTail || c == OutTail
    case OnTake(WakeIt(_, c)) => c == NoneTail || c == OutTail
    case OnRegister(Reg(_, cl)) => cl.On?
    case OnRegister(Reg1(_, _, cl)) => cl.On?
    case OnRegister(RegSelf(_, cl)) => cl.On?
    case OnRegister(RegStore(_, _, cl)) => cl.On?
    case OnRegister(Reg2(_, _, cl, _)) => cl.On?
    case OnRegister(RegWake(_, _, cl)) => cl.On?
    case OnHandle(PtCheck(_, cl)) => cl.On?
    case OnHandle(PtOut) => true
    case _ => false
  }

  /** The snapshots of `poll_task` and `set_canceled` were true. */
  predicate Seen(a: Shared, p: Pc) {
    && (Closing(p) ==> a.w.closed.On?)
    && (p.OnHandle? && p.handle.PtLoop? ==> Earlier(p.handle.s, a.w))
    && (p.OnGive? && p.give.ScLoop? ==> Earlier(p.give.s, a.w))
  }

  lemma TakeSees(a: Shared, p: TakePc, c: nat)
    requires Seen(a, OnTake(p))
    ensures Seen(DoTake(a, p, c).sh, DoTake(a, p, c).pc)
  {
  }

  lemma RegisterSees(a: Shared, p: RegisterPc, c: nat)
    requires Seen(a, OnRegister(p))
    ensures Seen(DoRegister(a, p, c).sh, DoRegister(a, p, c).pc)
  {
  }

  lemma HandleSees(a: Shared, p: HandlePc)
    requires Seen(a, OnHandle(p))
    ensures Seen(DoHandle(a, p).sh, DoHandle(a, p).pc)
  {
  }

  lemma GiveSees(a: Shared, p: GivePc, c: nat)
    requires Seen(a, OnGive(p))
    ensures Seen(DoGive(a, p, c).sh, DoGive(a, p, c).pc)
  {
  }

  lemma OthersSee(a: Shared, p: Pc, c: nat)
    requires !p.OnTake? && !p.OnRegister? && !p.OnHandle? && !p.OnGive?
    ensures Seen(Do(a, p, c).sh, Do(a, p, c).pc)
  {
  }

  lemma SeenStep(a: Shared, p: Pc, c: nat)
    requires Seen(a, p)
    ensures Seen(Do(a, p, c).sh, Do(a, p, c).pc)
  {
    match p
    case OnTake(x) => TakeSees(a, x, c);
    case OnRegister(x) => RegisterSees(a, x, c);
    case OnHandle(x) => HandleSees(a, x);
    case OnGive(x) => GiveSees(a, x, c);
    case _ => OthersSee(a, p, c);
  }

  ghost predicate AllSee(s: State) { Inv(s) && forall i :: 0 <= i < |s.pcs| ==> Seen(s.sh, s.pcs[i]) }

  lemma Monotone(s: State, i: nat, c: nat)
    requires Inv(s) && i < |s.pcs|
    ensures Earlier(s.sh.w, After(s, i, c).sh.w)
  {
    LocalView(s, i);
    LocalStep(s.sh, s.pcs[i], c);
  }

  lemma StillSeen(a: Shared, b: Shared, p: Pc)
    requires Seen(a, p) && Earlier(a.w, b.w)
    ensures Seen(b, p)
  {
  }

  lemma AllSeeStep(s: State, i: nat, c: nat)
    requires AllSee(s) && i < |s.pcs|
    ensures AllSee(After(s, i, c))
  {
    StepKeeps(s, i, c);
    Monotone(s, i, c);
    SeenStep(s.sh, s.pcs[i], c);
    var t := After(s, i, c);
    forall j | 0 <= j < |t.pcs| ensures Seen(t.sh, t.pcs[j]) {
      if j != i {
        StillSeen(s.sh, t.sh, s.pcs[j]);
      }
    }
  }

  lemma {:induction false} AllSeeRun(s: State, moves: Schedule)
    requires AllSee(s)
    ensures AllSee(Execute(s, moves))
    decreases |moves|
  {
    if moves != [] {
      if moves[0].0 < |s.pcs| {
        AllSeeStep(s, moves[0].0, moves[0].1);
      }
      AllSeeRun(Move(s, moves[0]), moves[1..]);
    }
  }

  lemma Sight(s: State, moves: Schedule)
    requires Init(s)
    ensures AllSee(Execute(s, moves))
  {
    InitHolds(s);
    AllSeeRun(s, moves);
  }

  lemma TakeAnswers(a: Shared, p: TakePc, c: nat, r: PollAnswer)
    requires Seen(a, OnTake(p)) && Answered(DoTake(a, p, c).pc, r) && r != NotPolled
    ensures Truthful(a, r, DoTake(a, p, c).sh)
  {
  }

  lemma HandleAnswers(a: Shared, p: HandlePc, r: PollAnswer)
    requires Local(a, OnHandle(p)) && Seen(a, OnHandle(p)) && Answered(DoHandle(a, p).pc, r)
    ensures Truthful(a, r, DoHandle(a, p).sh)
  {
  }

  lemma OnlyPollsAnswer(a: Shared, p: Pc, c: nat, r: PollAnswer)
    requires !p.OnTake? && !p.OnHandle? && Answered(Do(a, p, c).pc, r)
    ensures r == NotPolled
  {
  }

  /** Over every run, the answer of `poll_task` is true at the step that decides it: Pending
      if neither an output nor a closed task without a runner is there, None if the task is
      closed, Some exactly if this step takes the output out of the task. */
  lemma AnswersAreTrue(s: State, moves: Schedule, i: nat, c: nat, r: PollAnswer)
    requires Init(s) && i < |Execute(s, moves).pcs| && r != NotPolled
    requires Answered(After(Execute(s, moves), i, c).pcs[i], r)
    ensures Truthful(Execute(s, moves).sh, r, After(Execute(s, moves), i, c).sh)
  {
    Sight(s, moves);
    var t := Execute(s, moves);
    LocalView(t, i);
    match t.pcs[i]
    case OnTake(x) => TakeAnswers(t.sh, x, c, r);
    case OnHandle(x) => HandleAnswers(t.sh, x, r);
    case _ => OnlyPollsAnswer(t.sh, t.pcs[i], c, r);
  }

  // ---------------------------------------------------------------- a completed task is delivered

  /** The next answer thread `i` gives from `s` on. */
  ghost function NextAnswer(s: State, moves: Schedule, i: nat): Option<PollAnswer>
    decreases |moves|
  {
    if i < |s.pcs| && s.pcs[i].OnHandle? && s.pcs[i].handle.HandleBack? then Some(s.pcs[i].handle.answer)
    else if moves == [] then None
    else NextAnswer(Move(s, moves[0]), moves[1..], i)
  }

  predicate Ready(w: Word) { w.completed.On? && !w.closed.On? }

  /** Program points of a `poll_task` that is going to answer with the output. */
  predicate Delivers(w: Word, p: Pc) {
    match p
    case OnHandle(Pt(_)) => Ready(w)
    case OnHandle(PtLoop(v, _)) => Ready(w) && Ready(v)
    case OnHandle(PtOut) => true
    case OnHandle(HandleBack(r)) => r == IsOutput
    case OnTake(Take(c)) => c == OutTail
    case OnTake(TakeCell(c)) => c == OutTail
    case OnTake(TakeClear(c, _)) => c == OutTail
    case OnTake(WakeIt(_, c)) => c == OutTail
    case _ => false
  }

  lemma DeliversOn(a: Shared, p: Pc, c: nat)
    requires Delivers(a.w, p) && !(p.OnHandle? && p.handle.HandleBack?)
    ensures Delivers(Do(a, p, c).sh.w, Do(a, p, c).pc)
  {
  }

  /** Nobody without the handle closes a completed task. */
  lemma WakersLeaveReady(a: Shared, p: WakerPc, c: nat)
    requires Ready(a.w) && ThreadInv(a, OnWaker(p))
    ensures Ready(DoWaker(a, p, c).sh.w)
  {
  }

  lemma RunnersLeaveReady(a: Shared, p: Pc, c: nat)
    requires Ready(a.w) && Local(a, p) && (p.OnRun? || p.OnFinish? || p.OnPanic? || p.OnDrop?)
    ensures Ready(Do(a, p, c).sh.w)
  {
  }

  lemma LookersLeaveReady(a: Shared, p: Pc, c: nat)
    requires Ready(a.w) && (p.Idle? || p.OnRelease? || p.OnTake? || p.OnRegister?)
    ensures Ready(Do(a, p, c).sh.w)
  {
  }

  lemma OthersLeaveReady(a: Shared, p: Pc, c: nat)
    requires Ready(a.w) && Local(a, p) && Of(p).handle == 0
    ensures Ready(Do(a, p, c).sh.w)
  {
    match p
    case OnWaker(x) => WakersLeaveReady(a, x, c);
    case OnRun(_) => RunnersLeaveReady(a, p, c);
    case OnFinish(_) => RunnersLeaveReady(a, p, c);
    case OnPanic(_) => RunnersLeaveReady(a, p, c);
    case OnDrop(_) => RunnersLeaveReady(a, p, c);
    case _ => LookersLeaveReady(a, p, c);
  }

  /** There is one handle. */
  lemma OneHandle(s: State, i: nat, j: nat)
    requires Inv(s) && i < |s.pcs| && j < |s.pcs| && i != j && Of(s.pcs[i]).handle == 1
    ensures Of(s.pcs[j]).handle == 0
  {
    SumTwo(s.pcs, i, j, Handle);
  }

  lemma DeliversStep(s: State, i: nat, move: (nat, nat))
    requires Inv(s) && i < |s.pcs| && Delivers(s.sh.w, s.pcs[i])
    requires move.0 == i ==> !(s.pcs[i].OnHandle? && s.pcs[i].handle.HandleBack?)
    ensures var t := Move(s, move); |t.pcs| == |s.pcs| && Delivers(t.sh.w, t.pcs[i])
  {
    if move.0 == i {
      DeliversOn(s.sh, s.pcs[i], move.1);
    } else if move.0 < |s.pcs| {
      OneHandle(s, i, move.0);
      LocalView(s, move.0);
      if Ready(s.sh.w) {
        OthersLeaveReady(s.sh, s.pcs[move.0], move.1);
      }
    }
  }

  lemma {:induction false} DeliversRun(s: State, moves: Schedule, i: nat)
    requires Inv(s) && i < |s.pcs| && Delivers(s.sh.w, s.pcs[i])
    ensures NextAnswer(s, moves, i) == None || NextAnswer(s, moves, i) == Some(IsOutput)
    decreases |moves|
  {
    if moves != [] && !(s.pcs[i].OnHandle? && s.pcs[i].handle.HandleBack?) {
      DeliversStep(s, i, moves[0]);
      if moves[0].0 < |s.pcs| {
        StepKeeps(s, moves[0].0, moves[0].1);
      }
      DeliversRun(Move(s, moves[0]), moves[1..], i);
    }
  }

  /** Through every interleaving, a `poll_task` that starts on a completed task that nobody
      has closed can only answer with the output. */
  lemma CompletedIsDelivered(s: State, before: Schedule, i: nat, id: nat, after: Schedule)
    requires Init(s) && i < |Execute(s, before).pcs|
    requires Execute(s, before).pcs[i] == OnHandle(Pt(id)) && Ready(Execute(s, before).sh.w)
    ensures var r := NextAnswer(Execute(s, before), after, i); r == None || r == Some(IsOutput)
  {
    Reachable(s, before);
    DeliversRun(Execute(s, before), after, i);
  }

  // ---------------------------------------------------------------- cancelling

  /** `set_canceled` leaves its loop only with the task completed or closed. */
  lemma CancelEnds(s: State, moves: Schedule, i: nat, c: nat)
    requires Init(s) && i < |Execute(s, moves).pcs|
    requires var p := Execute(s, moves).pcs[i]; p.OnGive? && p.give.ScLoop?
    ensures var u := After(Execute(s, moves), i, c);
            Over(u.sh.w) || (u.pcs[i].OnGive? && u.pcs[i].give.ScLoop?)
  {
    Sight(s, moves);
    assert Seen(Execute(s, moves).sh, Execute(s, moves).pcs[i]);
  }

  lemma StartIsNotOver(a: Shared, p: Pc, c: nat)
    requires Local(a, p) && StartsPoll(p, Do(a, p, c).pc)
    ensures !Over(a.w)
  {
  }

  lemma OverStays(s: State, i: nat, c: nat)
    requires Inv(s) && i < |s.pcs| && Over(s.sh.w)
    ensures Over(After(s, i, c).sh.w) && !PollsNow(s, (i, c))
  {
    Monotone(s, i, c);
    LocalView(s, i);
    if PollsNow(s, (i, c)) {
      StartIsNotOver(s.sh, s.pcs[i], c);
    }
  }

  lemma {:induction false} OverIsNotPolled(s: State, moves: Schedule)
    requires Inv(s) && Over(s.sh.w)
    ensures !PolledIn(s, moves) && Over(Execute(s, moves).sh.w)
    decreases |moves|
  {
    if moves != [] {
      if moves[0].0 < |s.pcs| {
        OverStays(s, moves[0].0, moves[0].1);
        StepKeeps(s, moves[0].0, moves[0].1);
      }
      OverIsNotPolled(Move(s, moves[0]), moves[1..]);
    }
  }

  /** A cancelled task is not polled anew: once `set_canceled` has left its loop, no step of
      any continuation starts a poll, and the task stays completed or closed. */
  lemma CancelledIsNotPolled(s: State, before: Schedule, i: nat, c: nat, after: Schedule)
    requires Init(s) && i < |Execute(s, before).pcs|
    requires var p := Execute(s, before).pcs[i]; p.OnGive? && p.give.ScLoop?
    requires var q := After(Execute(s, before), i, c).pcs[i]; !(q.OnGive? && q.give.ScLoop?)
    ensures var u := After(Execute(s, before), i, c);
            !PolledIn(u, after) && Over(Execute(u, after).sh.w)
  {
    CancelEnds(s, before, i, c);
    Reachable(s, before);
    StepKeeps(Execute(s, before), i, c);
    OverIsNotPolled(After(Execute(s, before), i, c), after);
  }

  // ---------------------------------------------------------------- calls that run alone

  function Alone(c: nat): Out -> Out { (o: Out) => Do(o.sh, o.pc, c) }

  lemma {:induction false} AloneIsRun(s: State, i: nat, c: nat, n: nat)
    requires i < |s.pcs|
    ensures var o := Iterate(Alone(c), Out(s.sh, s.pcs[i]), n);
            Execute(s, Own(i, c, n)) == State(o.sh, s.pcs[i := o.pc])
    decreases n
  {
    if n > 0 {
      assert Own(i, c, n)[1..] == Own(i, c, n - 1);
      AloneIsRun(Move(s, (i, c)), i, c, n - 1);
    }
  }

  ghost predicate Runs(c: nat, a: Shared, p: Pc, b: Shared, q: Pc) { Leads(Alone(c), Out(a, p), Out(b, q)) }

  lemma Stays(c: nat, a: Shared, p: Pc)
    ensures Runs(c, a, p, a, p)
  {
    Arrived(Alone(c), Out(a, p));
  }

  lemma Ahead(c: nat, a: Shared, p: Pc, b: Shared, q: Pc)
    requires var o := Do(a, p, c); Runs(c, o.sh, o.pc, b, q)
    ensures Runs(c, a, p, b, q)
  {
    Solo.Then(Alone(c), Out(a, p), Out(b, q));
  }

  lemma GoesOn(s: State, i: nat, first: nat, c: nat, b: Shared, q: Pc) returns (n: nat)
    requires i < |s.pcs| && var o := Do(s.sh, s.pcs[i], first); Runs(c, o.sh, o.pc, b, q)
    ensures Execute(s, [(i, first)] + Own(i, c, n)) == State(b, s.pcs[i := q])
  {
    n :| Iterate(Alone(c), Do(s.sh, s.pcs[i], first), n) == Out(b, q);
    AloneIsRun(After(s, i, first), i, c, n);
    assert ([(i, first)] + Own(i, c, n))[1..] == Own(i, c, n);
  }

  /** What `take` leaves as it was. */
  predicate OnlyAwaiter(a: Shared, b: Shared) {
    && b.stage == a.stage && b.outputTakes == a.outputTakes && b.outputWrites == a.outputWrites
    && b.futureDrops == a.futureDrops && b.runnables == a.runnables && b.wakers == a.wakers
    && b.handles == a.handles
    && b.w == a.w.(notifying := b.w.notifying, awaiter := b.w.awaiter)
  }

  /** Taking the awaiter comes to an end, whoever else is at the cell. */
  lemma TakeEnds(c: nat, a: Shared, k: Caller) returns (b: Shared)
    requires c > 0 && k != RunTail
    ensures Runs(c, a, OnTake(Take(k)), b, Done(k)) && OnlyAwaiter(a, b)
  {
    var o := Do(a, OnTake(Take(k)), c);
    if o.pc == Done(k) {
      b := o.sh;
      Stays(c, b, Done(k));
    } else {
      b := TakeGoesOn(c, o.sh, k);
    }
    Ahead(c, a, OnTake(Take(k)), b, Done(k));
  }

  lemma TakeGoesOn(c: nat, a: Shared, k: Caller) returns (b: Shared)
    requires c > 0 && k != RunTail
    ensures Runs(c, a, OnTake(TakeCell(k)), b, Done(k)) && OnlyAwaiter(a, b)
  {
    var o := Do(a, OnTake(TakeCell(k)), c);
    var o' := Do(o.sh, o.pc, c);
    b := if a.cell.None? then o'.sh else o'.sh.(woken := o'.sh.woken + {a.cell.value});
    Stays(c, b, Done(k));
    if a.cell.Some? {
      Ahead(c, o'.sh, o'.pc, b, Done(k));
    }
    Ahead(c, o.sh, o.pc, b, Done(k));
    Ahead(c, a, OnTake(TakeCell(k)), b, Done(k));
  }

  lemma PollTakes(a: Shared, id: nat) returns (b: Shared)
    requires Ready(a.w)
    ensures Runs(1, a, OnHandle(Pt(id)), b, OnHandle(HandleBack(IsOutput)))
    ensures b.stage == Gone && b.outputTakes == a.outputTakes + 1 && b.w.closed.On?
  {
    var answer := OnHandle(HandleBack(IsOutput));
    var closed := a.(w := a.w.(closed := On));
    var taken := closed;
    if a.w.awaiter.On? {
      taken := TakeEnds(1, closed, OutTail);
    }
    b := TakeOutput(taken);
    Stays(1, b, answer);
    Ahead(1, taken, OnHandle(PtOut), b, answer);
    if a.w.awaiter.On? {
      Join(Alone(1), Out(closed, OnTake(Take(OutTail))), Out(taken, OnHandle(PtOut)), Out(b, answer));
    }
    Ahead(1, a, OnHandle(PtLoop(a.w, id)), b, answer);
    Ahead(1, a, OnHandle(Pt(id)), b, answer);
  }

  /** A `poll_task` that runs alone on a completed task answers with its output, which then
      is gone from the task. */
  lemma PollDelivers(s: State, moves: Schedule, i: nat) returns (n: nat)
    requires Init(s) && i < |Execute(s, moves).pcs| && Execute(s, moves).pcs[i] == Idle
    requires Execute(s, moves).sh.handles > 0 && Ready(Execute(s, moves).sh.w)
    ensures var t := Execute(s, moves);
            var u := Execute(t, [(i, 7)] + Own(i, 1, n));
            && u.pcs == t.pcs[i := OnHandle(HandleBack(IsOutput))]
            && t.sh.stage == HasOutput && u.sh.stage == Gone && u.sh.outputTakes == t.sh.outputTakes + 1 == 1
  {
    Reachable(s, moves);
    var t := Execute(s, moves);
    LocalView(t, i);
    var o := Do(t.sh, Idle, 7);
    var b := PollTakes(o.sh, t.sh.polls);
    n := GoesOn(t, i, 7, 1, b, OnHandle(HandleBack(IsOutput)));
  }

  // ---------------------------------------------------------------- waking alone

  /** Neither scheduled nor running, completed or closed. */
  predicate Dormant(w: Word) { !w.scheduled.On? && !w.running.On? && !w.completed.On? && !w.closed.On? }

  lemma WakeByRefRuns(a: Shared, wk: Waking) returns (b: Shared)
    requires Dormant(a.w) && a.w.refs > 0 && (wk == KeepWaker || wk == ThenDrop)
    ensures Runs(1, a, OnWaker(Wbr(wk)), b, Idle)
    ensures b.runnables == a.runnables + 1 && b.w.scheduled.On?
    ensures b.wakers == a.wakers + Bit(wk == KeepWaker)
  {
    var v := AddRef(a.w.(scheduled := On));
    var o := a.(w := v);
    var called := o.(runnables := a.runnables + 1);
    if wk == KeepWaker {
      b := called.(wakers := called.wakers + 1);
      Stays(1, b, Idle);
    } else {
      b := called.(w := v.(refs := v.refs - 1));
      Stays(1, b, Idle);
      Ahead(1, called, OnWaker(DropWaker(Leave)), b, Idle);
    }
    Ahead(1, called, OnWaker(WbrReturn(wk)), b, Idle);
    Ahead(1, o, OnWaker(WbrCall(wk)), b, Idle);
    Ahead(1, a, OnWaker(WbrLoop(a.w, wk)), b, Idle);
    Ahead(1, a, OnWaker(Wbr(wk)), b, Idle);
  }

  lemma WakeRuns(a: Shared) returns (b: Shared)
    requires Dormant(a.w) && a.w.refs > 0 && a.closure.Off?
    ensures Runs(1, a, OnWaker(Wake), b, Idle)
    ensures b.runnables == a.runnables + 1 && b.w.scheduled.On? && b.wakers == a.wakers
  {
    var o := a.(w := a.w.(scheduled := On));
    b := o.(runnables := a.runnables + 1);
    Stays(1, b, Idle);
    Ahead(1, b, OnRelease(SchedReturn(Leave, Off)), b, Idle);
    Ahead(1, o, OnRelease(SchedCall(Leave, Off)), b, Idle);
    Ahead(1, o, OnRelease(Sched(Leave)), b, Idle);
    Ahead(1, a, OnWaker(WakeLoop(a.w)), b, Idle);
    Ahead(1, a, OnWaker(Wake), b, Idle);
  }

  /** A `wake` (choice 1) or `wake_by_ref` (choice 2) that runs alone on a dormant task puts
      its one Runnable into the hands of `schedule`. */
  lemma WakeSchedules(s: State, moves: Schedule, i: nat, c: nat) returns (n: nat)
    requires Init(s) && i < |Execute(s, moves).pcs| && Execute(s, moves).pcs[i] == Idle && 1 <= c <= 2
    requires Execute(s, moves).sh.wakers > 0 && Dormant(Execute(s, moves).sh.w)
    ensures var t := Execute(s, moves);
            var u := Execute(t, [(i, c)] + Own(i, 1, n));
            && u.pcs == t.pcs && t.sh.runnables == 0 && u.sh.runnables == 1 && u.sh.w.scheduled.On?
            && u.sh.wakers == t.sh.wakers - Bit(c == 1)
  {
    Reachable(s, moves);
    var t := Execute(s, moves);
    LocalView(t, i);
    var o := Do(t.sh, Idle, c);
    var b;
    if o.pc == OnWaker(Wake) {
      b := WakeRuns(o.sh);
    } else {
      b := WakeByRefRuns(o.sh, o.pc.waker.wk);
    }
    n := GoesOn(t, i, c, 1, b, Idle);
    assert t.pcs[i := Idle] == t.pcs;
  }

  // ---------------------------------------------------------------- running alone

  /** What the end of a `run` leaves as it was: all but references and the awaiter. */
  predicate OnlyReleased(a: Shared, b: Shared) {
    && b.stage == a.stage && b.futureDrops == a.futureDrops && b.outputWrites == a.outputWrites
    && b.outputTakes == a.outputTakes && b.runnables == a.runnables
    && b.w.scheduled == a.w.scheduled && b.w.running == a.w.running && b.w.completed == a.w.completed
    && b.w.closed == a.w.closed && b.w.task == a.w.task
  }

  /** Giving up the runner's reference, the last one or not. */
  lemma Releases(c: nat, a: Shared, k: Then) returns (b: Shared)
    requires a.w.refs > 0 && !k.CancelNotify?
    ensures Runs(c, a, OnRelease(DropRef(k)), b, Idle) && OnlyReleased(a, b)
  {
    var o := Do(a, OnRelease(DropRef(k)), c);
    var left := if o.pc == OnRelease(Destroy(k)) then o.sh.(destroys := o.sh.destroys + 1) else o.sh;
    if k.WakeAwaiter? && k.aid.Some? {
      b := left.(woken := left.woken + {k.aid.value});
      Stays(c, b, Idle);
      Ahead(c, left, OnTake(WakeLast(k.aid.value)), b, Idle);
    } else {
      b := left;
      Stays(c, b, Idle);
    }
    if o.pc == OnRelease(Destroy(k)) {
      Ahead(c, o.sh, o.pc, b, Idle);
    }
    Ahead(c, a, OnRelease(DropRef(k)), b, Idle);
  }

  lemma TailRuns(c: nat, a: Shared, aw: Flag) returns (b: Shared)
    requires a.w.refs > 0
    ensures Runs(c, a, Tail(aw), b, Idle) && OnlyReleased(a, b)
  {
    if aw.Off? {
      b := Releases(c, a, WakeAwaiter(None));
    } else {
      b := TailTakes(c, a);
    }
  }

  lemma TailTakes(c: nat, a: Shared) returns (b: Shared)
    requires a.w.refs > 0
    ensures Runs(c, a, OnTake(Take(RunTail)), b, Idle) && OnlyReleased(a, b)
  {
    var o := Do(a, OnTake(Take(RunTail)), c);
    if o.pc == OnTake(TakeCell(RunTail)) {
      b := CellTakes(c, o.sh);
    } else {
      b := Releases(c, o.sh, WakeAwaiter(None));
    }
    Ahead(c, a, OnTake(Take(RunTail)), b, Idle);
  }

  lemma CellTakes(c: nat, a: Shared) returns (b: Shared)
    requires a.w.refs > 0
    ensures Runs(c, a, OnTake(TakeCell(RunTail)), b, Idle) && OnlyReleased(a, b)
  {
    var o := a.(cell := None);
    var o' := o.(w := o.w.(notifying := Off, awaiter := Off));
    b := Releases(c, o', WakeAwaiter(a.cell));
    Ahead(c, o, OnTake(TakeClear(RunTail, a.cell)), b, Idle);
    Ahead(c, a, OnTake(TakeCell(RunTail)), b, Idle);
  }

  function Started(w: Word): Word { w.(scheduled := Off, running := On) }

  /** Up to the poll. */
  lemma RunStarts(c: nat, a: Shared, b: Shared, q: Pc)
    requires c > 0 && !a.w.closed.On? && Runs(c, a.(w := Started(a.w)), OnRun(Poll(Started(a.w))), b, q)
    ensures Runs(c, a, OnRun(Run), b, q)
  {
    Ahead(c, a, OnRun(RunLoop(a.w)), b, q);
    Ahead(c, a, OnRun(Run), b, q);
  }

  lemma ReadyRuns(a: Shared) returns (b: Shared)
    requires a.w.refs > 0 && a.w.running.On? && !a.w.closed.On?
    ensures Runs(2, a, OnRun(Poll(a.w)), b, Idle)
    ensures b.w.completed.On? && !b.w.scheduled.On? && !b.w.running.On? && b.runnables == a.runnables
    ensures b.stage == (if a.w.task.On? then HasOutput else Gone) && b.futureDrops == a.futureDrops + 1
    ensures b.outputWrites == a.outputWrites + 1
  {
    var dropped := DropFuture(a, Vacant);
    var written := dropped.(stage := HasOutput, outputWrites := a.outputWrites + 1);
    var o := Do(written, OnFinish(ReadyLoop(a.w)), 2);
    var before := if a.w.task.On? then o.sh else TakeOutput(o.sh);
    b := TailRuns(2, before, a.w.awaiter);
    if !a.w.task.On? {
      Ahead(2, o.sh, o.pc, b, Idle);
    }
    Ahead(2, written, OnFinish(ReadyLoop(a.w)), b, Idle);
    Ahead(2, dropped, OnFinish(ReadyWrite(a.w)), b, Idle);
    Ahead(2, a, OnFinish(ReadyDrop(a.w)), b, Idle);
    Ahead(2, a, OnRun(Poll(a.w)), b, Idle);
  }

  lemma PendingRuns(a: Shared) returns (b: Shared)
    requires a.w.refs > 0 && a.w.running.On? && !a.w.closed.On? && !a.w.scheduled.On?
    ensures Runs(3, a, OnRun(Poll(a.w)), b, Idle)
    ensures OnlyReleased(a.(w := a.w.(running := Off)), b)
  {
    var o := a.(w := a.w.(running := Off));
    b := Releases(3, o, Leave);
    Ahead(3, a, OnFinish(PendLoop(a.w, Off)), b, Idle);
    Ahead(3, a, OnRun(Poll(a.w)), b, Idle);
  }

  lemma PanicRuns(a: Shared) returns (b: Shared)
    requires a.w.refs > 0 && a.w.running.On? && !a.w.closed.On? && !a.w.completed.On?
    ensures Runs(4, a, OnRun(Poll(a.w)), b, Idle)
    ensures b.w.closed.On? && !b.w.scheduled.On? && !b.w.running.On? && !b.w.completed.On?
    ensures b.stage == Gone && b.futureDrops == a.futureDrops + 1 && b.runnables == a.runnables
  {
    var o := a.(w := a.w.(running := Off, scheduled := Off, closed := On));
    var dropped := DropFuture(o, Gone);
    b := TailRuns(4, dropped, a.w.awaiter);
    Ahead(4, o, OnPanic(GuardDrop(a.w.awaiter)), b, Idle);
    Ahead(4, a, OnPanic(GuardLoop(a.w)), b, Idle);
    Ahead(4, a, OnPanic(Guard), b, Idle);
    Ahead(4, a, OnRun(Poll(a.w)), b, Idle);
  }

  lemma ClosedRuns(c: nat, a: Shared) returns (b: Shared)
    requires a.w.refs > 0 && a.w.closed.On?
    ensures Runs(c, a, OnRun(Run), b, Idle)
    ensures OnlyReleased(DropFuture(a.(w := a.w.(scheduled := Off)), Gone), b)
  {
    var dropped := DropFuture(a, Gone);
    var o := dropped.(w := a.w.(scheduled := Off));
    b := TailRuns(c, o, a.w.awaiter);
    Ahead(c, dropped, OnRun(RunClosedClear), b, Idle);
    Ahead(c, a, OnRun(RunClosed), b, Idle);
    Ahead(c, a, OnRun(RunLoop(a.w)), b, Idle);
    Ahead(c, a, OnRun(Run), b, Idle);
  }

  /** What a run leaves: a closed task without its future; after a poll that is Ready
      (choice 2) a completed one with its output, if there is a handle to take it; after
      Pending (3) the future for another poll; after a panic (4) a closed task. */
  predicate RunLeaves(a: Shared, c: nat, b: Shared) {
    && b.runnables == 0 && !b.w.scheduled.On? && !b.w.running.On?
    && (if a.w.closed.On? then b.w.closed.On? && b.stage == Gone && b.futureDrops == 1 && b.outputWrites == 0
        else if c == 2 then
          && b.w.completed.On? && b.futureDrops == 1 && b.outputWrites == 1
          && b.stage == (if a.w.task.On? then HasOutput else Gone)
        else if c == 3 then !Over(b.w) && b.stage == HasFuture
        else b.w.closed.On? && !b.w.completed.On? && b.stage == Gone && b.futureDrops == 1)
  }

  lemma RunRuns(a: Shared, c: nat) returns (b: Shared)
    requires a.w.refs > 0 && 2 <= c <= 4 && a.runnables == 0 && !a.w.completed.On? && !a.w.running.On?
    requires a.stage == HasFuture && a.futureDrops == 0 && a.outputWrites == 0
    ensures Runs(c, a, OnRun(Run), b, Idle) && RunLeaves(a, c, b)
  {
    var o := a.(w := Started(a.w));
    if a.w.closed.On? {
      b := ClosedRuns(c, a);
    } else if c == 2 {
      b := ReadyRuns(o);
      RunStarts(c, a, b, Idle);
    } else if c == 3 {
      b := PendingRuns(o);
      RunStarts(c, a, b, Idle);
    } else {
      b := PanicRuns(o);
      RunStarts(c, a, b, Idle);
    }
  }

  /** A Runnable that is run alone gives the task up in the state its poll asks for. */
  lemma RunEnds(s: State, moves: Schedule, i: nat, c: nat) returns (n: nat)
    requires Init(s) && i < |Execute(s, moves).pcs| && Execute(s, moves).pcs[i] == Idle && 2 <= c <= 4
    requires Execute(s, moves).sh.runnables > 0
    ensures var t := Execute(s, moves);
            var u := Execute(t, [(i, 4)] + Own(i, c, n));
            u.pcs == t.pcs && RunLeaves(t.sh, c, u.sh)
  {
    Reachable(s, moves);
    var t := Execute(s, moves);
    LocalView(t, i);
    var o := Do(t.sh, Idle, 4);
    var b := RunRuns(o.sh, c);
    n := GoesOn(t, i, 4, c, b, Idle);
    assert t.pcs[i := Idle] == t.pcs;
  }

  lemma DropRuns(a: Shared) returns (b: Shared)
    requires a.w.refs > 0 && !a.w.completed.On?
    ensures Runs(1, a, OnDrop(Rd), b, Idle)
    ensures b.w.closed.On? && !b.w.scheduled.On? && b.stage == Gone && b.futureDrops == a.futureDrops + 1
    ensures b.runnables == a.runnables
  {
    var closed := if a.w.closed.On? then a else a.(w := a.w.(closed := On));
    var dropped := DropFuture(closed, Gone);
    var o := Do(dropped, OnDrop(RdClear), 1);
    if a.w.awaiter.On? {
      var taken := TakeEnds(1, o.sh, DropTail);
      b := Releases(1, taken, Leave);
      Join(Alone(1), o, Out(taken, OnRelease(DropRef(Leave))), Out(b, Idle));
    } else {
      b := Releases(1, o.sh, Leave);
    }
    Ahead(1, dropped, OnDrop(RdClear), b, Idle);
    Ahead(1, closed, OnDrop(RdDrop), b, Idle);
    Ahead(1, a, OnDrop(RdLoop(a.w)), b, Idle);
    Ahead(1, a, OnDrop(Rd), b, Idle);
  }

  /** A Runnable that is dropped alone closes the task and drops its future. */
  lemma DropCloses(s: State, moves: Schedule, i: nat) returns (n: nat)
    requires Init(s) && i < |Execute(s, moves).pcs| && Execute(s, moves).pcs[i] == Idle
    requires Execute(s, moves).sh.runnables > 0
    ensures var t := Execute(s, moves);
            var u := Execute(t, [(i, 5)] + Own(i, 1, n));
            && u.pcs == t.pcs && u.sh.runnables == 0 && u.sh.w.closed.On? && !u.sh.w.scheduled.On?
            && u.sh.stage == Gone && u.sh.futureDrops == 1
  {
    Reachable(s, moves);
    var t := Execute(s, moves);
    LocalView(t, i);
    var b := DropRuns(Do(t.sh, Idle, 5).sh);
    n := GoesOn(t, i, 5, 1, b, Idle);
    assert t.pcs[i := Idle] == t.pcs;
  }

  // ---------------------------------------------------------------- giving the handle up alone

  /** `schedule` hands the Runnable over and gives its temporary waker back. */
  lemma Schedules(a: Shared, k: Then) returns (b: Shared)
    requires a.w.refs > 0
    ensures Runs(1, a, OnRelease(Sched(k)), b, Resume(k))
    ensures b == a.(runnables := a.runnables + 1)
  {
    var held := if a.closure.On? then a.(w := AddRef(a.w)) else a;
    var called := held.(runnables := a.runnables + 1);
    b := a.(runnables := a.runnables + 1);
    Stays(1, b, Resume(k));
    if a.closure.On? {
      Ahead(1, called, OnWaker(DropWaker(k)), b, Resume(k));
    }
    Ahead(1, called, OnRelease(SchedReturn(k, a.closure)), b, Resume(k));
    Ahead(1, held, OnRelease(SchedCall(k, a.closure)), b, Resume(k));
    Ahead(1, a, OnRelease(Sched(k)), b, Resume(k));
  }

  lemma Notifies(a: Shared, aw: Flag) returns (b: Shared)
    ensures Runs(1, a, Resume(CancelNotify(aw)), b, OnHandle(HandleBack(NotPolled))) && OnlyAwaiter(a, b)
  {
    if aw.On? {
      b := TakeEnds(1, a, CancelTail);
    } else {
      b := a;
      Stays(1, a, OnHandle(HandleBack(NotPolled)));
    }
  }

  lemma CancelRuns(a: Shared) returns (b: Shared)
    ensures Runs(1, a, OnGive(Sc), b, OnHandle(HandleBack(NotPolled))) && Over(b.w)
    ensures Dormant(a.w) ==> b.runnables == a.runnables + 1 && b.w.scheduled.On? && b.w.closed.On?
  {
    var back := OnHandle(HandleBack(NotPolled));
    if Over(a.w) {
      b := a;
      Stays(1, a, back);
    } else if Dormant(a.w) {
      var o := a.(w := AddRef(a.w.(scheduled := On, closed := On)));
      var o' := Schedules(o, CancelNotify(a.w.awaiter));
      b := Notifies(o', a.w.awaiter);
      Join(Alone(1), Out(o, OnRelease(Sched(CancelNotify(a.w.awaiter)))),
           Out(o', Resume(CancelNotify(a.w.awaiter))), Out(b, back));
    } else {
      b := Notifies(a.(w := a.w.(closed := On)), a.w.awaiter);
    }
    Ahead(1, a, OnGive(ScLoop(a.w)), b, back);
    Ahead(1, a, OnGive(Sc), b, back);
  }

  /** A `set_canceled` that runs alone closes the task, unless it is over, and hands a dormant
      one to `schedule`, so that its future is dropped. */
  lemma CancelCloses(s: State, moves: Schedule, i: nat) returns (n: nat)
    requires Init(s) && i < |Execute(s, moves).pcs| && Execute(s, moves).pcs[i] == Idle
    requires Execute(s, moves).sh.handles > 0
    ensures var t := Execute(s, moves);
            var u := Execute(t, [(i, 8)] + Own(i, 1, n));
            && u.pcs == t.pcs[i := OnHandle(HandleBack(NotPolled))] && Over(u.sh.w)
            && (Dormant(t.sh.w) ==> t.sh.runnables == 0 && u.sh.runnables == 1 && u.sh.w.scheduled.On?)
  {
    Reachable(s, moves);
    var t := Execute(s, moves);
    LocalView(t, i);
    var b := CancelRuns(Do(t.sh, Idle, 8).sh);
    n := GoesOn(t, i, 8, 1, b, OnHandle(HandleBack(NotPolled)));
  }

  lemma DetachLeaves(a: Shared) returns (b: Shared)
    requires !Ready(a.w)
    ensures Runs(1, a, OnGive(SdLoop(a.w)), b, Idle) && !b.w.task.On? && b.stage == a.stage
  {
    var o := Do(a, OnGive(SdLoop(a.w)), 1);
    if a.w.refs > 0 {
      b := o.sh;
      Stays(1, b, Idle);
    } else if a.w.closed.On? {
      b := o.sh.(destroys := o.sh.destroys + 1);
      Stays(1, b, Idle);
      Ahead(1, o.sh, o.pc, b, Idle);
    } else {
      b := Schedules(o.sh, Leave);
    }
    Ahead(1, a, OnGive(SdLoop(a.w)), b, Idle);
  }

  lemma DetachRuns(a: Shared) returns (b: Shared)
    ensures Runs(1, a, OnGive(Sd), b, Idle) && !b.w.task.On?
    ensures b.stage == if Ready(a.w) then Gone else a.stage
  {
    if a.w == Fresh() {
      b := a.(w := Fresh().(task := Off));
      Stays(1, b, Idle);
    } else if Ready(a.w) {
      var v := a.w.(closed := On);
      var closed := a.(w := v);
      b := DetachLeaves(TakeOutput(closed));
      Ahead(1, closed, OnGive(SdRead(v)), b, Idle);
      Ahead(1, a, OnGive(SdLoop(a.w)), b, Idle);
    } else {
      b := DetachLeaves(a);
    }
    Ahead(1, a, OnGive(Sd), b, Idle);
  }

  /** A `detach` that runs alone gives the handle up, and drops an output left in the task. */
  lemma DetachGivesUp(s: State, moves: Schedule, i: nat) returns (n: nat)
    requires Init(s) && i < |Execute(s, moves).pcs| && Execute(s, moves).pcs[i] == Idle
    requires Execute(s, moves).sh.handles > 0
    ensures var t := Execute(s, moves);
            var u := Execute(t, [(i, 9)] + Own(i, 1, n));
            && u.pcs == t.pcs && t.sh.w.task.On? && !u.sh.w.task.On?
            && u.sh.stage == if Ready(t.sh.w) then Gone else t.sh.stage
  {
    Reachable(s, moves);
    var t := Execute(s, moves);
    LocalView(t, i);
    var b := DetachRuns(Do(t.sh, Idle, 9).sh);
    n := GoesOn(t, i, 9, 1, b, Idle);
    assert t.pcs[i := Idle] == t.pcs;
  }
}
