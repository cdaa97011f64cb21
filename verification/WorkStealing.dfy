/** Runners, their bounded local queues and `steal`, runtime/executor.rs. Each queue
    call is one step, as the proofs about the two queues allow; between the calls
    of one thread every other runner may take from any queue. */
module WorkStealing {
  import opened Tally

  /** `None` is the global queue, `Some(j)` the local queue of runner `j`. */
  type Source = Option<nat>

  /** What a runner goes on with after stealing: the runnable it has already found, or its
      search, at the `k`-th local queue counted from a random `start`. */
  datatype Back = Holding(task: int) | Looking(start: nat, k: nat)

  datatype StealPc =
    | StealLen(src: Source, back: Back)
    | StealRoom(src: Source, n: nat, back: Back)
    | StealLoop(src: Source, n: nat, back: Back)
    | StealPush(src: Source, n: nat, task: int, back: Back)
    | StealFailed(task: int, back: Back)

  /** `Idle` is a thread without a runner, `Between` one whose runner has just run something
      and goes on, `Rest` one whose search has given up and whose ticker goes to sleep. */
  datatype Pc =
    | Idle
    | Between
    | Rest
    | PopLocal
    | PopGlobal
    | PopOthers(start: nat, k: nat)
    | PopStolen(start: nat, k: nat)
    | OnSteal(steal: StealPc)
    | Hold(task: int)
    | Drain
    | Reschedule(task: int)

  /** `spawned` and `ran` are histories: every runnable ever scheduled, every runnable run. */
  datatype State = State(
    cap: nat, global: seq<int>, locals: seq<seq<int>>, pcs: seq<Pc>,
    spawned: multiset<int>, ran: multiset<int>)

  predicate Shaped(s: State) { |s.locals| == |s.pcs| }

  predicate SameShape(s: State, t: State) { |t.locals| == |s.locals| && |t.pcs| == |s.pcs| && t.cap == s.cap }

  function Queue(s: State, src: Source): seq<int> {
    match src
    case None => s.global
    case Some(j) => if j < |s.locals| then s.locals[j] else []
  }

  function SetQueue(s: State, src: Source, q: seq<int>): State {
    match src
    case None => s.(global := q)
    case Some(j) => if j < |s.locals| then s.(locals := s.locals[j := q]) else s
  }

  function Go(s: State, i: nat, p: Pc): State
    requires i < |s.pcs|
  {
    s.(pcs := s.pcs[i := p])
  }

  /** What a runner does after stealing: run what it holds, or look at what it stole. */
  function AfterSteal(back: Back): Pc {
    match back
    case Holding(x) => Hold(x)
    case Looking(start, k) => PopStolen(start, k)
  }

  /** `steal(src, dest)` with the runner's own queue as `dest`. */
  function DoSteal(s: State, i: nat, p: StealPc): (t: State)
    requires Shaped(s) && i < |s.pcs|
    ensures SameShape(s, t)
  {
    match p
    case StealLen(src, back) =>
      var count := (|Queue(s, src)| + 1) / 2;
      Go(s, i, if count > 0 then OnSteal(StealRoom(src, count, back)) else AfterSteal(back))
    case StealRoom(src, n, back) =>
      var room := s.cap - |s.locals[i]|;
      if room < 0 then Go(s, i, OnSteal(StealFailed(0, back)))
      else Go(s, i, OnSteal(StealLoop(src, Min(n, room), back)))
    case StealLoop(src, n, back) =>
      if n == 0 || Queue(s, src) == [] then Go(s, i, AfterSteal(back))
      else Go(SetQueue(s, src, Queue(s, src)[1..]), i, OnSteal(StealPush(src, n, Queue(s, src)[0], back)))
    case StealPush(src, n, task, back) =>
      if |s.locals[i]| < s.cap && n > 0 then
        Go(s.(locals := s.locals[i := s.locals[i] + [task]]), i, OnSteal(StealLoop(src, n - 1, back)))
      else Go(s, i, OnSteal(StealFailed(task, back)))
    case StealFailed(_, _) => s
  }

  /** What a runner does with a runnable it has popped. */
  datatype Use = ToRun | ToStealMore | ToReschedule

  function With(use: Use, x: int): Pc {
    match use
    case ToRun => Hold(x)
    case ToStealMore => OnSteal(StealLen(None, Holding(x)))
    case ToReschedule => Reschedule(x)
  }

  /** Pop the front of a queue into the hand, or go on to `otherwise`. */
  function PopFrom(s: State, i: nat, src: Source, use: Use, otherwise: Pc): (t: State)
    requires Shaped(s) && i < |s.pcs|
    ensures SameShape(s, t)
  {
    if Queue(s, src) == [] then Go(s, i, otherwise)
    else Go(SetQueue(s, src, Queue(s, src)[1..]), i, With(use, Queue(s, src)[0]))
  }

  /** Outside `Runner::runnable` a thread starts a search, drops its runner, or schedules
      the runnable numbered `c`. */
  function DoOutside(s: State, i: nat, c: nat): (t: State)
    requires Shaped(s) && i < |s.pcs|
    ensures SameShape(s, t)
  {
    if c == 0 then Go(s, i, PopLocal)
    else if c == 1 then Go(s, i, Drain)
    else s.(global := s.global + [c], spawned := s.spawned + multiset{c})
  }

  function Victim(n: nat, start: nat, k: nat): nat
    requires n > 0
  {
    (start + k) % n
  }

  /** The `k`-th queue of a search is stolen from, unless it is the runner's own; after
      the last one the search gives up. */
  function Visits(n: nat, i: nat, start: nat, k: nat): Pc
    requires n > 0
  {
    if k >= n then Rest
    else if Victim(n, start, k) == i then PopOthers(start, k + 1)
    else OnSteal(StealLen(Some(Victim(n, start, k)), Looking(start, k)))
  }

  /** The moves of a runner; `c` picks among the calls open to it. */
  function Do(s: State, i: nat, c: nat): (t: State)
    requires Shaped(s) && i < |s.pcs|
    ensures SameShape(s, t)
  {
    match s.pcs[i]
    case Idle => DoOutside(s, i, c)
    case Between => DoOutside(s, i, c)
    case Rest => Go(s, i, if c == 0 then PopLocal else if c == 1 then Drain else Rest)
    case PopLocal => PopFrom(s, i, Some(i), ToRun, PopGlobal)
    case PopGlobal => PopFrom(s, i, None, ToStealMore, PopOthers(c, 0))
    case PopOthers(start, k) => Go(s, i, Visits(|s.pcs|, i, start, k))
    case PopStolen(start, k) => PopFrom(s, i, Some(i), ToRun, PopOthers(start, k + 1))
    case OnSteal(p) => DoSteal(s, i, p)
    case Hold(x) =>
      if c == 0 then Go(s, i, OnSteal(StealLen(None, Holding(x))))
      else Go(s.(ran := s.ran + multiset{x}), i, Between)
    case Drain => PopFrom(s, i, Some(i), ToReschedule, Idle)
    case Reschedule(x) => Go(s.(global := s.global + [x]), i, Drain)
  }

  function Move(s: State, move: (nat, nat)): (t: State)
    requires Shaped(s)
    ensures Shaped(t) && |t.pcs| == |s.pcs| && t.cap == s.cap
  {
    if move.0 < |s.pcs| then Do(s, move.0, move.1) else s
  }

  function Execute(s: State, moves: seq<(nat, nat)>): (t: State)
    requires Shaped(s)
    ensures Shaped(t) && |t.pcs| == |s.pcs| && t.cap == s.cap
    decreases |moves|
  {
    if moves == [] then s else Execute(Move(s, moves[0]), moves[1..])
  }

  predicate Init(s: State) {
    && Shaped(s) && s.cap > 0 && s.global == [] && s.spawned == multiset{} && s.ran == multiset{}
    && (forall i :: 0 <= i < |s.locals| ==> s.locals[i] == [])
    && (forall i :: 0 <= i < |s.pcs| ==> s.pcs[i] == Idle)
  }

  // ---------------------------------------------------------------- room

  /** Room the thread still counts on in its own queue. */
  predicate RoomInv(cap: nat, own: seq<int>, p: Pc) {
    && |own| <= cap
    && (p.OnSteal? ==> !p.steal.StealFailed?)
    && (p.OnSteal? && p.steal.StealLoop? ==> |own| + p.steal.n <= cap)
    && (p.OnSteal? && p.steal.StealPush? ==> p.steal.n > 0 && |own| + p.steal.n <= cap)
  }

  ghost predicate Roomy(s: State) {
    Shaped(s) && forall i: nat :: i < |s.pcs| ==> RoomInv(s.cap, s.locals[i], s.pcs[i])
  }

  /** Nobody but its owner makes a local queue longer. */
  lemma OnlyOwnerPushes(s: State, i: nat, c: nat, j: nat)
    requires Shaped(s) && i < |s.pcs| && j < |s.pcs| && j != i
    ensures var t := Do(s, i, c); |t.locals[j]| <= |s.locals[j]| && t.pcs[j] == s.pcs[j]
  {
    if s.pcs[i].OnSteal? {
      StealingOnlyTakes(s, i, s.pcs[i].steal, j);
    }
  }

  lemma StealingOnlyTakes(s: State, i: nat, p: StealPc, j: nat)
    requires Shaped(s) && i < |s.pcs| && j < |s.pcs| && j != i
    ensures var t := DoSteal(s, i, p); |t.locals[j]| <= |s.locals[j]| && t.pcs[j] == s.pcs[j]
  {
    if p.StealLoop? && Queue(s, p.src) != [] {
      TakingOnlyTakes(s, p.src, j);
    }
  }

  lemma TakingOnlyTakes(s: State, src: Source, j: nat)
    requires j < |s.locals| && Queue(s, src) != []
    ensures |SetQueue(s, src, Queue(s, src)[1..]).locals[j]| <= |s.locals[j]|
  {
  }

  lemma StealKeepsRoom(s: State, i: nat, p: StealPc)
    requires Shaped(s) && i < |s.pcs| && RoomInv(s.cap, s.locals[i], OnSteal(p))
    ensures var t := DoSteal(s, i, p);
            RoomInv(t.cap, t.locals[i], if t == s then OnSteal(p) else t.pcs[i])
  {
    if p.StealLen? {
      var t := DoSteal(s, i, p);
      assert t.locals == s.locals;
    }
  }

  lemma OwnerKeepsRoom(s: State, i: nat, c: nat)
    requires Roomy(s) && i < |s.pcs|
    ensures var t := Do(s, i, c); RoomInv(t.cap, t.locals[i], t.pcs[i])
  {
    assert RoomInv(s.cap, s.locals[i], s.pcs[i]);
    if s.pcs[i].OnSteal? {
      StealKeepsRoom(s, i, s.pcs[i].steal);
    }
  }

  lemma MoveKeepsRoom(s: State, move: (nat, nat))
    requires Roomy(s)
    ensures Roomy(Move(s, move))
  {
    if move.0 < |s.pcs| {
      var t := Move(s, move);
      OwnerKeepsRoom(s, move.0, move.1);
      forall j: nat | j < |t.pcs| ensures RoomInv(t.cap, t.locals[j], t.pcs[j]) {
        if j != move.0 {
          OnlyOwnerPushes(s, move.0, move.1, j);
          assert RoomInv(s.cap, s.locals[j], s.pcs[j]);
        }
      }
    }
  }

  // ---------------------------------------------------------------- conservation

  /** How many copies of `x` a thread has in its hands. */
  function InHand(p: Pc, x: int): nat {
    match p
    case Hold(y) => Bit(x == y)
    case Reschedule(y) => Bit(x == y)
    case OnSteal(q) =>
      Bit(q.back == Holding(x)) + (if q.StealPush? then Bit(q.task == x) else 0)
    case _ => 0
  }

  function HandOf(x: int): Pc -> nat { (p: Pc) => InHand(p, x) }

  function CopiesOf(x: int): seq<int> -> nat { (q: seq<int>) => multiset(q)[x] }

  ghost function Total(s: State, x: int): nat {
    multiset(s.global)[x] + Sum(s.locals, CopiesOf(x)) + Sum(s.pcs, HandOf(x)) + s.ran[x]
  }

  ghost predicate Conserved(s: State) { forall x :: Total(s, x) == s.spawned[x] }

  lemma GoTotal(s: State, i: nat, p: Pc, x: int)
    requires i < |s.pcs|
    ensures Total(Go(s, i, p), x) + InHand(s.pcs[i], x) == Total(s, x) + InHand(p, x)
  {
    SumUpdate(s.pcs, i, p, HandOf(x));
  }

  lemma QueueTotal(s: State, src: Source, q: seq<int>, x: int)
    requires src.Some? ==> src.value < |s.locals|
    ensures Total(SetQueue(s, src, q), x) + multiset(Queue(s, src))[x] == Total(s, x) + multiset(q)[x]
  {
    if src.Some? {
      SumUpdate(s.locals, src.value, q, CopiesOf(x));
    }
  }

  lemma FrontTotal(q: seq<int>, x: int)
    requires q != []
    ensures multiset(q)[x] == multiset(q[1..])[x] + Bit(q[0] == x)
  {
    assert q == [q[0]] + q[1..];
  }

  /** A popped runnable goes from the queue into the hand. */
  lemma PopTotal(s: State, i: nat, src: Source, p: Pc, x: int)
    requires Shaped(s) && i < |s.pcs| && Queue(s, src) != []
    requires InHand(p, x) == InHand(s.pcs[i], x) + Bit(Queue(s, src)[0] == x)
    ensures Total(Go(SetQueue(s, src, Queue(s, src)[1..]), i, p), x) == Total(s, x)
  {
    var q := Queue(s, src);
    QueueTotal(s, src, q[1..], x);
    FrontTotal(q, x);
    GoTotal(SetQueue(s, src, q[1..]), i, p, x);
  }

  /** A runnable pushed by its holder goes from the hand into a queue. */
  lemma PushTotal(s: State, i: nat, src: Source, task: int, p: Pc, x: int)
    requires Shaped(s) && i < |s.pcs| && (src.Some? ==> src.value < |s.locals|)
    requires InHand(p, x) + Bit(task == x) == InHand(s.pcs[i], x)
    ensures Total(Go(SetQueue(s, src, Queue(s, src) + [task]), i, p), x) == Total(s, x)
  {
    QueueTotal(s, src, Queue(s, src) + [task], x);
    GoTotal(SetQueue(s, src, Queue(s, src) + [task]), i, p, x);
  }

  lemma StealKeepsTotal(s: State, i: nat, c: nat, x: int)
    requires Shaped(s) && i < |s.pcs| && s.pcs[i].OnSteal?
    requires RoomInv(s.cap, s.locals[i], s.pcs[i])
    ensures Total(Do(s, i, c), x) == Total(s, x)
  {
    var p := s.pcs[i].steal;
    if p.StealPush? {
      PushTotal(s, i, Some(i), p.task, OnSteal(StealLoop(p.src, p.n - 1, p.back)), x);
    } else if p.StealLoop? && p.n != 0 && Queue(s, p.src) != [] {
      PopTotal(s, i, p.src, OnSteal(StealPush(p.src, p.n, Queue(s, p.src)[0], p.back)), x);
    } else {
      GoTotal(s, i, Do(s, i, c).pcs[i], x);
    }
  }

  lemma PopFromKeeps(s: State, i: nat, src: Source, use: Use, otherwise: Pc, x: int)
    requires Shaped(s) && i < |s.pcs| && InHand(s.pcs[i], x) == 0 == InHand(otherwise, x)
    ensures Total(PopFrom(s, i, src, use, otherwise), x) == Total(s, x)
  {
    if Queue(s, src) == [] {
      GoTotal(s, i, otherwise, x);
    } else {
      PopTotal(s, i, src, With(use, Queue(s, src)[0]), x);
    }
  }

  predicate Popping(p: Pc) { p.PopLocal? || p.PopGlobal? || p.PopStolen? || p.Drain? }

  lemma PopsKeepTotal(s: State, i: nat, c: nat, x: int)
    requires Shaped(s) && i < |s.pcs| && Popping(s.pcs[i])
    ensures Total(Do(s, i, c), x) == Total(s, x)
  {
    match s.pcs[i]
    case PopLocal => PopFromKeeps(s, i, Some(i), ToRun, PopGlobal, x);
    case PopGlobal => PopFromKeeps(s, i, None, ToStealMore, PopOthers(c, 0), x);
    case PopStolen(start, k) => PopFromKeeps(s, i, Some(i), ToRun, PopOthers(start, k + 1), x);
    case Drain => PopFromKeeps(s, i, Some(i), ToReschedule, Idle, x);
  }

  predicate Outside(p: Pc) { p.Idle? || p.Between? }

  lemma SpawnTotal(s: State, i: nat, c: nat, x: int)
    requires Shaped(s) && i < |s.pcs| && Outside(s.pcs[i])
    ensures var t := Do(s, i, c); Total(t, x) + s.spawned[x] == Total(s, x) + t.spawned[x]
  {
    if c >= 2 {
      QueueTotal(s, None, s.global + [c], x);
    } else {
      GoTotal(s, i, Do(s, i, c).pcs[i], x);
    }
  }

  lemma HeldKeepsTotal(s: State, i: nat, c: nat, x: int)
    requires Shaped(s) && i < |s.pcs|
    requires s.pcs[i].Rest? || s.pcs[i].PopOthers? || s.pcs[i].Hold? || s.pcs[i].Reschedule?
    ensures Total(Do(s, i, c), x) == Total(s, x)
  {
    match s.pcs[i]
    case Rest => GoTotal(s, i, Do(s, i, c).pcs[i], x);
    case PopOthers(_, _) => GoTotal(s, i, Do(s, i, c).pcs[i], x);
    case Hold(y) =>
      if c == 0 {
        GoTotal(s, i, OnSteal(StealLen(None, Holding(y))), x);
      } else {
        GoTotal(s.(ran := s.ran + multiset{y}), i, Between, x);
      }
    case Reschedule(y) => PushTotal(s, i, None, y, Drain, x);
  }

  lemma OnlySpawnSpawns(s: State, i: nat, c: nat)
    requires Shaped(s) && i < |s.pcs| && !Outside(s.pcs[i])
    ensures Do(s, i, c).spawned == s.spawned
  {
  }

  lemma MoveConserves(s: State, move: (nat, nat))
    requires Roomy(s) && Conserved(s)
    ensures Conserved(Move(s, move))
  {
    var t := Move(s, move);
    forall x ensures Total(t, x) == t.spawned[x] {
      assert Total(s, x) == s.spawned[x];
      if move.0 < |s.pcs| {
        if !Outside(s.pcs[move.0]) {
          OnlySpawnSpawns(s, move.0, move.1);
        }
        if s.pcs[move.0].OnSteal? {
          StealKeepsTotal(s, move.0, move.1, x);
        } else if Popping(s.pcs[move.0]) {
          PopsKeepTotal(s, move.0, move.1, x);
        } else if Outside(s.pcs[move.0]) {
          SpawnTotal(s, move.0, move.1, x);
        } else {
          HeldKeepsTotal(s, move.0, move.1, x);
        }
      }
    }
  }

  lemma {:induction false} RunKeeps(s: State, moves: seq<(nat, nat)>)
    requires Roomy(s) && Conserved(s)
    ensures Roomy(Execute(s, moves)) && Conserved(Execute(s, moves))
    decreases |moves|
  {
    if moves != [] {
      MoveKeepsRoom(s, moves[0]);
      MoveConserves(s, moves[0]);
      RunKeeps(Move(s, moves[0]), moves[1..]);
    }
  }

  // ---------------------------------------------------------------- searches that give up

  /** Points at which the runner's own queue has been found empty. */
  predicate Spent(p: Pc) { p.Idle? || p.PopGlobal? || p.PopOthers? || p.Rest? }

  ghost predicate SpentInv(s: State) {
    Shaped(s) && forall i: nat :: i < |s.pcs| && Spent(s.pcs[i]) ==> s.locals[i] == []
  }

  lemma OwnSearch(s: State, i: nat, c: nat)
    requires SpentInv(s) && i < |s.pcs| && !s.pcs[i].OnSteal?
    ensures var t := Do(s, i, c); Spent(t.pcs[i]) ==> t.locals[i] == []
  {
  }

  lemma OwnSteal(s: State, i: nat, p: StealPc)
    requires Shaped(s) && i < |s.pcs|
    ensures !Spent(DoSteal(s, i, p).pcs[i]) || DoSteal(s, i, p) == s
  {
  }

  lemma MoveKeepsSpent(s: State, move: (nat, nat))
    requires SpentInv(s)
    ensures SpentInv(Move(s, move))
  {
    var (i, c) := move;
    if i < |s.pcs| {
      var t := Move(s, move);
      if s.pcs[i].OnSteal? {
        OwnSteal(s, i, s.pcs[i].steal);
      } else {
        OwnSearch(s, i, c);
      }
      forall j: nat | j < |t.pcs| && Spent(t.pcs[j]) ensures t.locals[j] == [] {
        if j != i {
          OnlyOwnerPushes(s, i, c, j);
        }
      }
    }
  }

  lemma {:induction false} RunKeepsSpent(s: State, moves: seq<(nat, nat)>)
    requires SpentInv(s)
    ensures SpentInv(Execute(s, moves))
    decreases |moves|
  {
    if moves != [] {
      MoveKeepsSpent(s, moves[0]);
      RunKeepsSpent(Move(s, moves[0]), moves[1..]);
    }
  }

  // ---------------------------------------------------------------- theorems

  /** A search that gives up leaves the runner's queue empty, and it stays so while the
      ticker rests; so with every thread at rest or without a runner no local queue holds
      work, and whatever was scheduled is in the global queue or has been run. */
  lemma RestIsEmpty(s: State, moves: seq<(nat, nat)>, x: int)
    requires Init(s)
    ensures var t := Execute(s, moves);
            && (forall i: nat :: i < |t.pcs| && t.pcs[i].Rest? ==> t.locals[i] == [])
            && ((forall i: nat :: i < |t.pcs| ==> t.pcs[i].Rest? || t.pcs[i].Idle?) ==>
                  && (forall i: nat :: i < |t.locals| ==> t.locals[i] == [])
                  && multiset(t.global)[x] + t.ran[x] == t.spawned[x])
  {
    RunKeepsSpent(s, moves);
    Reachable(s, moves);
    var t := Execute(s, moves);
    assert Total(t, x) == t.spawned[x];
    if forall i: nat :: i < |t.pcs| ==> t.pcs[i].Rest? || t.pcs[i].Idle? {
      SumZero(t.locals, CopiesOf(x));
      SumZero(t.pcs, HandOf(x));
    }
  }

  lemma Reachable(s: State, moves: seq<(nat, nat)>)
    requires Init(s)
    ensures Roomy(Execute(s, moves)) && Conserved(Execute(s, moves))
  {
    forall x ensures Total(s, x) == s.spawned[x] {
      SumZero(s.locals, CopiesOf(x));
      SumZero(s.pcs, HandOf(x));
    }
    RunKeeps(s, moves);
  }

  /** `steal` never trips its assertion, and `cap - dest.len()` never underflows. */
  lemma StealNeverFails(s: State, moves: seq<(nat, nat)>, i: nat)
    requires Init(s) && i < |s.pcs|
    ensures var t := Execute(s, moves);
            |t.locals[i]| <= t.cap && !(t.pcs[i].OnSteal? && t.pcs[i].steal.StealFailed?)
  {
    Reachable(s, moves);
    var t := Execute(s, moves);
    assert RoomInv(t.cap, t.locals[i], t.pcs[i]);
  }

  /** Every runnable scheduled is in exactly one place: a queue, a hand, or run. */
  lemma RunnablesAreConserved(s: State, moves: seq<(nat, nat)>, x: int)
    requires Init(s)
    ensures var t := Execute(s, moves);
            multiset(t.global)[x] + Sum(t.locals, CopiesOf(x)) + Sum(t.pcs, HandOf(x)) + t.ran[x] == t.spawned[x]
  {
    Reachable(s, moves);
    assert Total(Execute(s, moves), x) == Execute(s, moves).spawned[x];
  }

  /** A runner outside `Runner::runnable` with nothing in its queue. */
  predicate Emptied(s: State, i: nat)
    requires Shaped(s) && i < |s.pcs|
  {
    (s.pcs[i] == Idle || s.pcs[i] == Drain) && s.locals[i] == []
  }

  lemma EmptiedStep(s: State, move: (nat, nat), i: nat)
    requires Shaped(s) && i < |s.pcs| && Emptied(s, i) && (move.0 == i ==> move.1 != 0)
    ensures Emptied(Move(s, move), i)
  {
    if move.0 < |s.pcs| && move.0 != i {
      OnlyOwnerPushes(s, move.0, move.1, i);
    }
  }

  lemma {:induction false} EmptiedRun(s: State, moves: seq<(nat, nat)>, i: nat)
    requires Shaped(s) && i < |s.pcs| && Emptied(s, i)
    requires forall k :: 0 <= k < |moves| && moves[k].0 == i ==> moves[k].1 != 0
    ensures Emptied(Execute(s, moves), i)
    decreases |moves|
  {
    if moves != [] {
      EmptiedStep(s, moves[0], i);
      EmptiedRun(Move(s, moves[0]), moves[1..], i);
    }
  }

  /** Dropping a runner ends only when its queue is empty, and from then on the queue stays
      empty through every interleaving, until the thread itself starts a new search. */
  lemma DroppedQueueStaysEmpty(s: State, before: seq<(nat, nat)>, i: nat, c: nat, after: seq<(nat, nat)>)
    requires Init(s) && i < |s.pcs| && Execute(s, before).pcs[i] == Drain
    requires Move(Execute(s, before), (i, c)).pcs[i] == Idle
    requires forall k :: 0 <= k < |after| && after[k].0 == i ==> after[k].1 != 0
    ensures Execute(Move(Execute(s, before), (i, c)), after).locals[i] == []
  {
    EmptiedRun(Move(Execute(s, before), (i, c)), after, i);
  }
}
