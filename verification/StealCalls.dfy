/** What one `steal` moves, and what one search of a runner finds. */
module StealCalls {
  import opened Tally
  import opened Solo
  import opened WorkStealing
  import Laps

  // ---------------------------------------------------------------- at most half

  /** The runnables thread `i` takes from its victim until its `steal` ends. */
  ghost function Takes(s: State, moves: seq<(nat, nat)>, i: nat): nat
    requires Shaped(s) && i < |s.pcs|
    decreases |moves|
  {
    if moves == [] || !s.pcs[i].OnSteal? then 0
    else
      var t := Move(s, moves[0]);
      Bit(moves[0].0 == i && s.pcs[i].steal.StealLoop? && t.pcs[i].OnSteal? && t.pcs[i].steal.StealPush?)
      + Takes(t, moves[1..], i)
  }

  /** How many a `steal` may still take once it has seen the length of its victim. */
  function Left(p: Pc): nat {
    match p
    case OnSteal(StealRoom(_, n, _)) => n
    case OnSteal(StealLoop(_, n, _)) => n
    case OnSteal(StealPush(_, n, _, _)) => if n == 0 then 0 else n - 1
    case _ => 0
  }

  lemma OthersStand(s: State, move: (nat, nat), i: nat)
    requires Shaped(s) && i < |s.pcs| && move.0 != i
    ensures Move(s, move).pcs[i] == s.pcs[i]
  {
    if move.0 < |s.pcs| {
      OnlyOwnerPushes(s, move.0, move.1, i);
    }
  }

  lemma {:induction false} TakesAtMost(s: State, moves: seq<(nat, nat)>, i: nat)
    requires Shaped(s) && i < |s.pcs| && s.pcs[i].OnSteal? && !s.pcs[i].steal.StealLen?
    ensures Takes(s, moves, i) <= Left(s.pcs[i])
    decreases |moves|
  {
    if moves != [] {
      var t := Move(s, moves[0]);
      if moves[0].0 != i {
        OthersStand(s, moves[0], i);
      }
      if t.pcs[i].OnSteal? {
        TakesAtMost(t, moves[1..], i);
      }
    }
  }

  /** Through every interleaving, one `steal` takes at most half of what it has seen in
      the victim's queue, rounded up. */
  lemma NeverMoreThanHalf(s: State, i: nat, c: nat, moves: seq<(nat, nat)>)
    requires Shaped(s) && i < |s.pcs| && s.pcs[i].OnSteal? && s.pcs[i].steal.StealLen?
    ensures var seen := |Queue(s, s.pcs[i].steal.src)|;
            2 * Takes(Move(s, (i, c)), moves, i) <= seen + 1
  {
    var t := Move(s, (i, c));
    if t.pcs[i].OnSteal? {
      TakesAtMost(t, moves, i);
    }
  }

  // ---------------------------------------------------------------- one steal alone

  function Alone(i: nat, c: nat): State -> State {
    (s: State) => if Shaped(s) && i < |s.pcs| then Do(s, i, c) else s
  }

  lemma AloneIsMove(s: State, i: nat, c: nat)
    requires Shaped(s) && i < |s.pcs|
    ensures Alone(i, c)(s) == Move(s, (i, c))
  {
  }

  lemma {:induction false} AloneIsRun(s: State, i: nat, c: nat, n: nat)
    requires Shaped(s) && i < |s.pcs|
    ensures Execute(s, Own(i, c, n)) == Iterate(Alone(i, c), s, n)
    decreases n
  {
    if n > 0 {
      var rest := Own(i, c, n)[1..];
      assert rest == Own(i, c, n - 1);
      AloneIsMove(s, i, c);
      AloneIsRun(Move(s, (i, c)), i, c, n - 1);
    }
  }

  ghost predicate Runs(i: nat, c: nat, s: State, t: State) { Leads(Alone(i, c), s, t) }

  lemma Ahead(i: nat, c: nat, s: State, t: State)
    requires Shaped(s) && i < |s.pcs| && Runs(i, c, Do(s, i, c), t)
    ensures Runs(i, c, s, t)
  {
    Then(Alone(i, c), s, t);
  }

  lemma RunIs(i: nat, c: nat, s: State, t: State) returns (n: nat)
    requires Shaped(s) && i < |s.pcs| && Runs(i, c, s, t)
    ensures Execute(s, Own(i, c, n)) == t
  {
    n :| Iterate(Alone(i, c), s, n) == t;
    AloneIsRun(s, i, c, n);
  }

  /** A source other than the thread's own queue. */
  predicate Foreign(s: State, i: nat, src: Source) { src == None || (src.value < |s.locals| && src.value != i) }

  /** `k` runnables have gone from the front of `src` to the end of the thread's own queue,
      and nothing else has happened. */
  predicate Moved(s: State, t: State, i: nat, src: Source, k: nat)
    requires Shaped(s) && i < |s.pcs|
  {
    && SameShape(s, t) && k <= |Queue(s, src)| && t.spawned == s.spawned && t.ran == s.ran
    && Queue(t, src) == Queue(s, src)[k..]
    && t.locals[i] == s.locals[i] + Queue(s, src)[..k]
    && (src.Some? ==> t.global == s.global)
    && (forall j: nat :: j < |s.locals| && j != i && src != Some(j) ==> t.locals[j] == s.locals[j])
  }

  /** One round of the loop: a pop from the source and a push to the own queue. */
  function Round(s: State, i: nat, src: Source, n: nat, back: Back): (t: State)
    requires Shaped(s) && i < |s.pcs| && Queue(s, src) != [] && n > 0
  {
    var popped := SetQueue(s, src, Queue(s, src)[1..]);
    Go(popped.(locals := popped.locals[i := popped.locals[i] + [Queue(s, src)[0]]]),
       i, OnSteal(StealLoop(src, n - 1, back)))
  }

  lemma RoundRuns(s: State, i: nat, c: nat, src: Source, n: nat, back: Back, t: State)
    requires Shaped(s) && i < |s.pcs| && s.pcs[i] == OnSteal(StealLoop(src, n, back))
    requires Foreign(s, i, src) && Queue(s, src) != [] && n > 0 && |s.locals[i]| + n <= s.cap
    requires Runs(i, c, Round(s, i, src, n, back), t)
    ensures Runs(i, c, s, t)
  {
    var u := Do(s, i, c);
    assert Do(u, i, c) == Round(s, i, src, n, back);
    Ahead(i, c, u, t);
    Ahead(i, c, s, t);
  }

  lemma RoundMoves(s: State, i: nat, src: Source, n: nat, back: Back, t: State, k: nat)
    requires Shaped(s) && i < |s.pcs| && Foreign(s, i, src) && Queue(s, src) != [] && n > 0
    requires Moved(Round(s, i, src, n, back), t, i, src, k)
    ensures Moved(s, t, i, src, k + 1)
  {
    var q := Queue(s, src);
    var u := Round(s, i, src, n, back);
    assert Queue(u, src) == q[1..];
    assert q[1..][k..] == q[k + 1..];
    assert s.locals[i] + [q[0]] + q[1..][..k] == s.locals[i] + q[..k + 1];
  }

  lemma {:induction false} LoopRuns(s: State, i: nat, c: nat, src: Source, n: nat, back: Back) returns (t: State)
    requires Shaped(s) && i < |s.pcs| && s.pcs[i] == OnSteal(StealLoop(src, n, back))
    requires Foreign(s, i, src) && n <= |Queue(s, src)| && |s.locals[i]| + n <= s.cap
    ensures Runs(i, c, s, t) && Moved(s, t, i, src, n) && t.pcs == s.pcs[i := AfterSteal(back)]
    decreases n
  {
    if n == 0 {
      t := Do(s, i, c);
      Arrived(Alone(i, c), t);
      Ahead(i, c, s, t);
      assert s.locals[i] + [] == s.locals[i];
    } else {
      var u := Round(s, i, src, n, back);
      t := LoopRuns(u, i, c, src, n - 1, back);
      RoundRuns(s, i, c, src, n, back, t);
      RoundMoves(s, i, src, n, back, t, n - 1);
    }
  }

  /** A `steal` that runs alone takes runnables from the front of the victim's queue to the
      end of its own, in order: half of what is there, rounded up, or, if that is more than
      there is room for, as many as fill its own queue. */
  lemma StealTakesHalf(s: State, moves: seq<(nat, nat)>, i: nat, c: nat, src: Source, back: Back)
    returns (n: nat, k: nat)
    requires Init(s) && i < |s.pcs| && Execute(s, moves).pcs[i] == OnSteal(StealLen(src, back))
    requires Foreign(Execute(s, moves), i, src)
    ensures var t := Execute(s, moves);
            var u := Execute(t, Own(i, c, n));
            && Moved(t, u, i, src, k) && u.pcs == t.pcs[i := AfterSteal(back)]
            && 2 * k <= |Queue(t, src)| + 1
            && (|Queue(t, src)| <= 2 * k || |u.locals[i]| == t.cap)
  {
    Reachable(s, moves);
    var t := Execute(s, moves);
    assert RoomInv(t.cap, t.locals[i], t.pcs[i]);
    var u;
    u, k := StealRuns(t, i, c, src, back);
    n := RunIs(i, c, t, u);
  }

  lemma StealRuns(s: State, i: nat, c: nat, src: Source, back: Back) returns (t: State, k: nat)
    requires Shaped(s) && i < |s.pcs| && s.pcs[i] == OnSteal(StealLen(src, back))
    requires Foreign(s, i, src) && |s.locals[i]| <= s.cap
    ensures Runs(i, c, s, t) && Moved(s, t, i, src, k) && t.pcs == s.pcs[i := AfterSteal(back)]
    ensures 2 * k <= |Queue(s, src)| + 1
    ensures |Queue(s, src)| <= 2 * k || |t.locals[i]| == s.cap
  {
    var count := (|Queue(s, src)| + 1) / 2;
    if count == 0 {
      k := 0;
      t := Go(s, i, AfterSteal(back));
      Arrived(Alone(i, c), t);
      Ahead(i, c, s, t);
    } else {
      k := Min(count, s.cap - |s.locals[i]|);
      var room := Go(s, i, OnSteal(StealRoom(src, count, back)));
      var loop := Go(s, i, OnSteal(StealLoop(src, k, back)));
      t := LoopRuns(loop, i, c, src, k, back);
      assert Go(room, i, OnSteal(StealLoop(src, k, back))) == loop;
      Ahead(i, c, room, t);
      Ahead(i, c, s, t);
    }
  }

  // ---------------------------------------------------------------- one search alone

  predicate NoWork(s: State) { s.global == [] && forall j: nat :: j < |s.locals| ==> s.locals[j] == [] }

  predicate SameQueues(s: State, t: State) { t.global == s.global && t.locals == s.locals }

  /** The first `k` queues from `start` on are empty. */
  predicate Looked(s: State, start: nat, k: nat) {
    forall j: nat :: j < k && j < |s.locals| ==> s.locals[Victim(|s.locals|, start, j)] == []
  }

  /** Every queue is among the `n` that a search visits. */
  lemma VisitsAll(n: nat, start: nat, j: nat) returns (k: nat)
    requires j < n
    ensures k < n && Victim(n, start, k) == j
  {
    var r := start % n;
    k := if j >= r then j - r else j + n - r;
    SumMod(n, start / n, r, k, j);
    assert start == start / n * n + r;
  }

  lemma SumMod(n: nat, q: nat, r: nat, k: nat, j: nat)
    requires r < n && j < n && (r + k == j || r + k == j + n)
    ensures (q * n + r + k) % n == j
  {
    if r + k == j {
      Remainder(n, q, j);
    } else {
      assert (q + 1) * n == q * n + n;
      Remainder(n, q + 1, j);
    }
  }

  lemma Remainder(n: nat, q: nat, r: nat)
    requires r < n
    ensures (q * n + r) % n == r
  {
    Laps.Unique(n, q, r);
  }

  lemma AllLooked(s: State, start: nat)
    requires s.global == [] && Looked(s, start, |s.locals|)
    ensures NoWork(s)
  {
    forall j: nat | j < |s.locals| ensures s.locals[j] == [] {
      var k := VisitsAll(|s.locals|, start, j);
      assert s.locals[Victim(|s.locals|, start, k)] == [];
    }
  }

  lemma PassesBy(s: State, i: nat, c: nat, start: nat, k: nat, t: State)
    requires Shaped(s) && i < |s.pcs| && s.pcs[i] == PopOthers(start, k) && k < |s.locals|
    requires s.locals[i] == [] && s.locals[Victim(|s.locals|, start, k)] == []
    requires Runs(i, c, Go(s, i, PopOthers(start, k + 1)), t)
    ensures Runs(i, c, s, t)
  {
    var v := Victim(|s.locals|, start, k);
    if v != i {
      var len := Go(s, i, OnSteal(StealLen(Some(v), Looking(start, k))));
      var stolen := Go(s, i, PopStolen(start, k));
      assert Go(stolen, i, PopOthers(start, k + 1)) == Go(s, i, PopOthers(start, k + 1));
      Ahead(i, c, stolen, t);
      assert Go(len, i, PopStolen(start, k)) == stolen;
      Ahead(i, c, len, t);
    }
    Ahead(i, c, s, t);
  }

  /** What has been stolen is there to be popped. */
  lemma Robs(s: State, i: nat, c: nat, start: nat, k: nat) returns (t: State)
    requires Shaped(s) && i < |s.pcs| && s.cap > 0 && s.pcs[i] == PopOthers(start, k) && k < |s.locals|
    requires s.locals[i] == [] && s.locals[Victim(|s.locals|, start, k)] != []
    ensures Runs(i, c, s, t) && |t.pcs| == |s.pcs| && t.pcs[i].Hold?
  {
    var v := Victim(|s.locals|, start, k);
    var len := Go(s, i, OnSteal(StealLen(Some(v), Looking(start, k))));
    var stolen, m := StealRuns(len, i, c, Some(v), Looking(start, k));
    t := Do(stolen, i, c);
    Arrived(Alone(i, c), t);
    Ahead(i, c, stolen, t);
    Join(Alone(i, c), len, stolen, t);
    Ahead(i, c, s, t);
  }

  lemma NextVisit(s: State, i: nat, start: nat, k: nat)
    requires Shaped(s) && i < |s.pcs| && k < |s.locals| && Looked(s, start, k)
    requires s.locals[Victim(|s.locals|, start, k)] == []
    ensures var next := Go(s, i, PopOthers(start, k + 1));
            Looked(next, start, k + 1) && (NoWork(next) <==> NoWork(s)) && Go(next, i, Rest) == Go(s, i, Rest)
  {
  }

  lemma Visiting(s: State, i: nat, c: nat, start: nat, k: nat) returns (t: State)
    requires Shaped(s) && i < |s.pcs| && s.cap > 0 && s.pcs[i] == PopOthers(start, k)
    requires s.global == [] && s.locals[i] == [] && k <= |s.locals| && Looked(s, start, k)
    ensures Runs(i, c, s, t) && |t.pcs| == |s.pcs|
    ensures if NoWork(s) then t == Go(s, i, Rest) else t.pcs[i].Hold?
    decreases |s.locals| - k
  {
    if k == |s.locals| {
      AllLooked(s, start);
      t := Go(s, i, Rest);
      Arrived(Alone(i, c), t);
      Ahead(i, c, s, t);
    } else if s.locals[Victim(|s.locals|, start, k)] == [] {
      var next := Go(s, i, PopOthers(start, k + 1));
      NextVisit(s, i, start, k);
      t := Visiting(next, i, c, start, k + 1);
      PassesBy(s, i, c, start, k, t);
    } else {
      t := Robs(s, i, c, start, k);
    }
  }

  /** With its own queue empty and something in the global one. */
  lemma TakesGlobal(s: State, i: nat, c: nat) returns (t: State)
    requires Shaped(s) && i < |s.pcs| && |s.locals[i]| <= s.cap && s.pcs[i] == PopGlobal && s.global != []
    ensures Runs(i, c, s, t) && |t.pcs| == |s.pcs| && t.pcs[i] == Hold(s.global[0])
  {
    var popped := Do(s, i, c);
    var k;
    t, k := StealRuns(popped, i, c, None, Holding(s.global[0]));
    Ahead(i, c, s, t);
  }

  /** A runner that finds its own queue empty and the global one not takes the oldest
      runnable there and, on top of it, half of the rest. */
  lemma GlobalIsShared(s: State, moves: seq<(nat, nat)>, i: nat, c: nat) returns (n: nat, k: nat)
    requires Init(s) && i < |s.pcs| && Execute(s, moves).pcs[i] == PopGlobal && Execute(s, moves).global != []
    ensures var t := Execute(s, moves);
            var u := Execute(t, Own(i, c, n));
            && u.pcs == t.pcs[i := Hold(t.global[0])] && Moved(t.(global := t.global[1..]), u, i, None, k)
            && 2 * k <= |t.global|
            && (|t.global| - 1 <= 2 * k || |u.locals[i]| == t.cap)
  {
    Reachable(s, moves);
    var t := Execute(s, moves);
    assert RoomInv(t.cap, t.locals[i], t.pcs[i]);
    var popped := Do(t, i, c);
    var u;
    u, k := StealRuns(popped, i, c, None, Holding(t.global[0]));
    Ahead(i, c, t, u);
    n := RunIs(i, c, t, u);
  }

  lemma Searches(s: State, i: nat, c: nat) returns (t: State)
    requires Shaped(s) && i < |s.pcs| && s.cap > 0 && |s.locals[i]| <= s.cap && s.pcs[i] == PopLocal
    ensures Runs(i, c, s, t) && |t.pcs| == |s.pcs|
    ensures if NoWork(s) then t == Go(s, i, Rest) else t.pcs[i].Hold?
  {
    var next := Do(s, i, c);
    if s.locals[i] != [] {
      t := next;
      Arrived(Alone(i, c), t);
    } else if s.global != [] {
      t := TakesGlobal(next, i, c);
    } else {
      var others := Go(s, i, PopOthers(c, 0));
      t := Visiting(others, i, c, c, 0);
      assert Do(next, i, c) == others;
      Ahead(i, c, next, t);
    }
    Ahead(i, c, s, t);
  }

  /** A runner that searches alone, from wherever it starts among the local queues, gives
      up exactly if no queue holds work, and otherwise comes back with a runnable. */
  lemma SearchDecides(s: State, moves: seq<(nat, nat)>, i: nat, c: nat) returns (n: nat)
    requires Init(s) && i < |s.pcs| && Execute(s, moves).pcs[i] == PopLocal
    ensures var t := Execute(s, moves);
            var u := Execute(t, Own(i, c, n));
            if NoWork(t) then u == Go(t, i, Rest) else u.pcs[i].Hold?
  {
    Reachable(s, moves);
    var t := Execute(s, moves);
    assert RoomInv(t.cap, t.locals[i], t.pcs[i]);
    var u := Searches(t, i, c);
    n := RunIs(i, c, t, u);
  }
}
