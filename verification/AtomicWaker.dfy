/** The AtomicWaker of platform/atomic_waker/waker.rs: two bits guard a waker cell that
    any number of threads register into and take from. */
module AtomicWaker {
  import opened Tally

  /** What became of a stored waker. */
  datatype Fate = Returned | SelfWoken | Overwritten

  datatype Place = InCell | Held(thread: nat) | Gone(fate: Fate)

  /** `Nobody` owns the cell in state WAITING. */
  datatype Owner = Nobody | Registrar(thread: nat) | Taker(thread: nat)

  /** The two bits and the cell. Stored wakers are numbered in order; `places` and `owner`
      are histories. */
  datatype Shared = Shared(
    registering: Flag, waking: Flag, cell: Option<nat>, stores: nat,
    places: map<nat, Place>, owner: Owner)

  datatype Pc =
    | Idle
    | Store
    | Release(n: nat)
    | Retake(n: nat)
    | Swap(n: nat)
    | WakeOwn(n: nat)
    | WakeByRef
    | TakeCell
    | TakeClear(taken: Option<nat>)
    | TakeReturn(taken: Option<nat>)
    | UnwrapFailed

  datatype State = State(sh: Shared, pcs: seq<Pc>)

  datatype Out = Out(sh: Shared, pc: Pc)

  function Dispose(a: Shared, n: nat, f: Fate): map<nat, Place> { a.places[n := Gone(f)] }

  /** The first step of `register` (`c == 0`) and of `take`. */
  function DoIdle(a: Shared, i: nat, c: nat): Out {
    if c == 0 then
      if a.registering.Off? && a.waking.Off? then Out(a.(registering := On, owner := Registrar(i)), Store)
      else Out(a, if a.registering.Off? then WakeByRef else Idle)
    else if a.registering.Off? && a.waking.Off? then Out(a.(waking := On, owner := Taker(i)), TakeCell)
    else Out(a.(waking := On), Idle)
  }

  function Do(a: Shared, i: nat, p: Pc, c: nat): Out {
    match p
    case Idle => DoIdle(a, i, c)
    case Store =>
      var places := if a.cell.Some? then Dispose(a, a.cell.value, Overwritten) else a.places;
      Out(a.(cell := Some(a.stores), stores := a.stores + 1, places := places[a.stores := InCell]), Release(a.stores))
    case Release(n) =>
      if a.waking.Off? then Out(a.(registering := Off, owner := Nobody), Idle) else Out(a, Retake(n))
    case Retake(n) =>
      if a.cell.None? then Out(a, UnwrapFailed)
      else Out(a.(cell := None, places := a.places[a.cell.value := Held(i)]), Swap(a.cell.value))
    case Swap(n) => Out(a.(registering := Off, waking := Off, owner := Nobody), WakeOwn(n))
    case WakeOwn(n) => Out(a.(places := Dispose(a, n, SelfWoken)), Idle)
    case WakeByRef => Out(a, Idle)
    case TakeCell =>
      if a.cell.None? then Out(a, TakeClear(None))
      else Out(a.(cell := None, places := a.places[a.cell.value := Held(i)]), TakeClear(a.cell))
    case TakeClear(x) => Out(a.(waking := Off, owner := Nobody), TakeReturn(x))
    case TakeReturn(x) => Out(if x.Some? then a.(places := Dispose(a, x.value, Returned)) else a, Idle)
    case UnwrapFailed => Out(a, p)
  }

  function Move(s: State, move: (nat, nat)): (t: State)
    ensures |t.pcs| == |s.pcs|
  {
    if move.0 < |s.pcs| then
      var o := Do(s.sh, move.0, s.pcs[move.0], move.1);
      State(o.sh, s.pcs[move.0 := o.pc])
    else s
  }

  function Execute(s: State, moves: seq<(nat, nat)>): (t: State)
    ensures |t.pcs| == |s.pcs|
    decreases |moves|
  {
    if moves == [] then s else Execute(Move(s, moves[0]), moves[1..])
  }

  predicate Init(s: State) {
    && s.sh == Shared(Off, Off, None, 0, map[], Nobody)
    && forall i :: 0 <= i < |s.pcs| ==> s.pcs[i] == Idle
  }

  // ---------------------------------------------------------------- the invariant

  predicate Registers(p: Pc) { p.Store? || p.Release? || p.Retake? || p.Swap? }

  predicate Takes(p: Pc) { p.TakeCell? || p.TakeClear? }

  /** Points at which a thread reads or writes the cell. */
  predicate TouchesCell(p: Pc) { p.Store? || p.Retake? || p.TakeCell? }

  function HandOf(p: Pc): Option<nat> {
    match p
    case Swap(n) => Some(n)
    case WakeOwn(n) => Some(n)
    case TakeClear(x) => x
    case TakeReturn(x) => x
    case _ => None
  }

  ghost predicate SharedInv(a: Shared) {
    && (a.registering.On? <==> a.owner.Registrar?)
    && (a.owner.Taker? ==> a.waking.On?)
    && (a.owner.Nobody? ==> a.waking.Off?)
    && (forall n: nat :: n in a.places <==> n < a.stores)
    && (forall n :: n in a.places ==> (a.places[n] == InCell <==> a.cell == Some(n)))
    && (a.cell.Some? ==> a.cell.value in a.places)
  }

  ghost predicate ThreadInv(a: Shared, i: nat, p: Pc) {
    && (a.owner == Registrar(i) <==> Registers(p))
    && (a.owner == Taker(i) <==> Takes(p))
    && (forall n :: n in a.places ==> (a.places[n] == Held(i) <==> HandOf(p) == Some(n)))
    && (HandOf(p).Some? ==> HandOf(p).value in a.places)
    && (p.Release? ==> a.cell == Some(p.n))
    && (p.Retake? ==> a.cell == Some(p.n) && a.waking.On?)
    && (p.Swap? || p.TakeClear? ==> a.cell == None)
    && !p.UnwrapFailed?
  }

  ghost predicate Inv(s: State) {
    && SharedInv(s.sh) && (s.sh.owner.Nobody? || s.sh.owner.thread < |s.pcs|)
    && (forall n :: n in s.sh.places && s.sh.places[n].Held? ==> s.sh.places[n].thread < |s.pcs|)
    && forall i: nat :: i < |s.pcs| ==> ThreadInv(s.sh, i, s.pcs[i])
  }

  /** What a step of thread `i` leaves to the others. */
  ghost predicate Rely(a: Shared, b: Shared, i: nat) {
    && (a.owner != b.owner ==> (a.owner == Nobody || a.owner.thread == i) && (b.owner == Nobody || b.owner.thread == i))
    && (a.owner != Nobody && a.owner.thread != i ==> b.cell == a.cell && (a.waking.On? ==> b.waking.On?))
    && (forall n :: n in a.places ==> n in b.places)
    && (forall n :: n in b.places && n !in a.places ==> b.places[n] == InCell)
    && (forall n :: n in a.places && a.places[n] != b.places[n] ==>
          !(a.places[n].Held? && a.places[n].thread != i) && !(b.places[n].Held? && b.places[n].thread != i))
  }

  lemma OthersKeep(a: Shared, b: Shared, i: nat, j: nat, p: Pc)
    requires Rely(a, b, i) && i != j && ThreadInv(a, j, p)
    ensures ThreadInv(b, j, p)
  {
  }

  ghost predicate Good(a: Shared, i: nat, o: Out) {
    SharedInv(o.sh) && ThreadInv(o.sh, i, o.pc) && Rely(a, o.sh, i)
  }

  lemma RegisterStep(a: Shared, i: nat, p: Pc, c: nat)
    requires SharedInv(a) && ThreadInv(a, i, p) && (p.Store? || p.Release? || p.Retake?)
    ensures Good(a, i, Do(a, i, p, c))
  {
  }

  lemma TakeStep(a: Shared, i: nat, p: Pc, c: nat)
    requires SharedInv(a) && ThreadInv(a, i, p) && (p.TakeCell? || p.TakeClear? || p.TakeReturn?)
    ensures Good(a, i, Do(a, i, p, c))
  {
  }

  lemma OtherStep(a: Shared, i: nat, p: Pc, c: nat)
    requires SharedInv(a) && ThreadInv(a, i, p) && (p.Idle? || p.Swap? || p.WakeOwn? || p.WakeByRef?)
    ensures Good(a, i, Do(a, i, p, c))
  {
  }

  lemma MoveKeeps(s: State, move: (nat, nat))
    requires Inv(s)
    ensures Inv(Move(s, move))
  {
    var (i, c) := move;
    if i < |s.pcs| {
      var t := Move(s, move);
      var p := s.pcs[i];
      assert ThreadInv(s.sh, i, p);
      if p.Store? || p.Release? || p.Retake? {
        RegisterStep(s.sh, i, p, c);
      } else if p.TakeCell? || p.TakeClear? || p.TakeReturn? {
        TakeStep(s.sh, i, p, c);
      } else {
        OtherStep(s.sh, i, p, c);
      }
      forall j: nat | j < |t.pcs| ensures ThreadInv(t.sh, j, t.pcs[j]) {
        if j != i {
          OthersKeep(s.sh, t.sh, i, j, s.pcs[j]);
        }
      }
    }
  }

  lemma {:induction false} RunKeeps(s: State, moves: seq<(nat, nat)>)
    requires Inv(s)
    ensures Inv(Execute(s, moves))
    decreases |moves|
  {
    if moves != [] {
      MoveKeeps(s, moves[0]);
      RunKeeps(Move(s, moves[0]), moves[1..]);
    }
  }

  lemma Reachable(s: State, moves: seq<(nat, nat)>)
    requires Init(s)
    ensures Inv(Execute(s, moves))
  {
    RunKeeps(s, moves);
  }

  // ---------------------------------------------------------------- theorems

  /** At most one thread is at a point that touches the cell, and the `unwrap` of a
      registrant never fails. */
  lemma CellIsExclusive(s: State, moves: seq<(nat, nat)>, i: nat, j: nat)
    requires Init(s) && i < |s.pcs| && j < |s.pcs|
    ensures var t := Execute(s, moves);
            && (TouchesCell(t.pcs[i]) && TouchesCell(t.pcs[j]) ==> i == j)
            && !t.pcs[i].UnwrapFailed?
  {
    Reachable(s, moves);
    var t := Execute(s, moves);
    assert ThreadInv(t.sh, i, t.pcs[i]) && ThreadInv(t.sh, j, t.pcs[j]);
  }

  /** A take that hits a registration in progress is not lost: the state can leave
      WAKING only with an empty cell, so the waker stored by the registration is
      taken back and woken by the registrant. */
  lemma WakingEmptiesCell(s: State, moves: seq<(nat, nat)>, move: (nat, nat))
    requires Init(s)
    ensures var t := Execute(s, moves);
            var u := Move(t, move);
            && (t.sh.waking.On? && u.sh.waking.Off? ==> u.sh.cell == None)
            && (move.0 < |t.pcs| && t.pcs[move.0].Release? && t.sh.waking.On? ==>
                  u.pcs[move.0] == Retake(t.pcs[move.0].n) && u.sh.cell == Some(t.pcs[move.0].n))
  {
    Reachable(s, moves);
    var t := Execute(s, moves);
    if move.0 < |t.pcs| {
      assert ThreadInv(t.sh, move.0, t.pcs[move.0]);
    }
  }

  /** Thread `i` is registering waker `n` and a `take` has hit the registration; it takes
      the waker back and wakes it, or has done so. */
  ghost predicate WillWakeOwn(s: State, i: nat, n: nat)
    requires i < |s.pcs|
  {
    || (s.pcs[i] == Store && s.sh.waking.On? && n == s.sh.stores)
    || (s.pcs[i] == Release(n) && s.sh.waking.On?)
    || s.pcs[i] in {Retake(n), Swap(n), WakeOwn(n)}
    || (n in s.sh.places && s.sh.places[n] == Gone(SelfWoken))
  }

  lemma WillWakeOwnStep(s: State, move: (nat, nat), i: nat, n: nat)
    requires Inv(s) && i < |s.pcs| && WillWakeOwn(s, i, n)
    ensures WillWakeOwn(Move(s, move), i, n)
  {
    assert ThreadInv(s.sh, i, s.pcs[i]);
    if n in s.sh.places && s.sh.places[n] == Gone(SelfWoken) {
      FateIsFinalStep(s, move, n);
    } else if move.0 < |s.pcs| && move.0 != i {
      assert ThreadInv(s.sh, move.0, s.pcs[move.0]);
    }
  }

  /** A `take` that hits a registration is not lost: from then on, in every continuation,
      the registrant is on its way to wake its own waker or has woken it. */
  lemma {:induction false} HitRegistrantWakes(s: State, moves: seq<(nat, nat)>, i: nat, n: nat)
    requires Inv(s) && i < |s.pcs| && WillWakeOwn(s, i, n)
    ensures WillWakeOwn(Execute(s, moves), i, n)
    decreases |moves|
  {
    if moves != [] {
      WillWakeOwnStep(s, moves[0], i, n);
      MoveKeeps(s, moves[0]);
      HitRegistrantWakes(Move(s, moves[0]), moves[1..], i, n);
    }
  }

  /** And a `take` does hit it: its first step leaves WAKING set for the registrant. */
  lemma TakeHits(s: State, moves: seq<(nat, nat)>, j: nat, c: nat, i: nat)
    requires Init(s) && i < |s.pcs| && j < |s.pcs| && c > 0
    requires var t := Execute(s, moves); t.pcs[j] == Idle && (t.pcs[i] == Store || t.pcs[i].Release?)
    ensures var t := Execute(s, moves);
            var u := Move(t, (j, c));
            Inv(u) && u.pcs[j] == Idle && WillWakeOwn(u, i, if t.pcs[i] == Store then t.sh.stores else t.pcs[i].n)
  {
    Reachable(s, moves);
    var t := Execute(s, moves);
    assert ThreadInv(t.sh, i, t.pcs[i]);
    MoveKeeps(t, (j, c));
  }

  /** Every waker ever stored is in exactly one place: the cell, one thread's hands, or
      gone by one fate. */
  lemma EveryWakerHasOnePlace(s: State, moves: seq<(nat, nat)>, n: nat)
    requires Init(s) && n < Execute(s, moves).sh.stores
    ensures var t := Execute(s, moves);
            && n in t.sh.places
            && (t.sh.cell == Some(n) <==> t.sh.places[n] == InCell)
            && (t.sh.places[n].Held? ==> t.sh.places[n].thread < |t.pcs|)
            && (forall i: nat :: i < |t.pcs| ==> (HandOf(t.pcs[i]) == Some(n) <==> t.sh.places[n] == Held(i)))
  {
    Reachable(s, moves);
    var t := Execute(s, moves);
    forall i: nat | i < |t.pcs| ensures HandOf(t.pcs[i]) == Some(n) <==> t.sh.places[n] == Held(i) {
      assert ThreadInv(t.sh, i, t.pcs[i]);
    }
  }

  lemma FateIsFinalStep(s: State, move: (nat, nat), n: nat)
    requires Inv(s) && n in s.sh.places && s.sh.places[n].Gone?
    ensures n in Move(s, move).sh.places && Move(s, move).sh.places[n] == s.sh.places[n]
  {
    if move.0 < |s.pcs| {
      assert ThreadInv(s.sh, move.0, s.pcs[move.0]);
    }
  }

  /** A waker leaves once: its fate never changes again. */
  lemma {:induction false} FateIsFinal(s: State, moves: seq<(nat, nat)>, n: nat)
    requires Inv(s) && n in s.sh.places && s.sh.places[n].Gone?
    ensures n in Execute(s, moves).sh.places && Execute(s, moves).sh.places[n] == s.sh.places[n]
    decreases |moves|
  {
    if moves != [] {
      FateIsFinalStep(s, moves[0], n);
      MoveKeeps(s, moves[0]);
      FateIsFinal(Move(s, moves[0]), moves[1..], n);
    }
  }

  // ---------------------------------------------------------------- calls that run alone

  predicate Quiet(s: State) { forall i :: 0 <= i < |s.pcs| ==> s.pcs[i] == Idle }

  lemma QuietIsWaiting(s: State)
    requires Inv(s) && Quiet(s)
    ensures s.sh.registering.Off? && s.sh.waking.Off? && s.sh.owner == Nobody
  {
    assert s.sh.owner != Nobody ==> ThreadInv(s.sh, s.sh.owner.thread, s.pcs[s.sh.owner.thread]);
  }

  lemma OneMove(s: State, m: (nat, nat), rest: seq<(nat, nat)>)
    ensures Execute(s, [m] + rest) == Execute(Move(s, m), rest)
  {
    assert ([m] + rest)[1..] == rest;
  }

  lemma ThreeMoves(s: State, a: (nat, nat), b: (nat, nat), c: (nat, nat))
    ensures Execute(s, [a, b, c]) == Move(Move(Move(s, a), b), c)
  {
    OneMove(s, a, [b, c]);
    OneMove(Move(s, a), b, [c]);
    OneMove(Move(Move(s, a), b), c, []);
  }

  /** A `register` that runs alone leaves its waker in the cell, in the place of an earlier
      one. */
  lemma RegisterStores(s: State, moves: seq<(nat, nat)>, i: nat)
    requires Init(s) && i < |s.pcs| && Quiet(Execute(s, moves))
    ensures var t := Execute(s, moves);
            var u := Execute(t, [(i, 0), (i, 0), (i, 0)]);
            && u.pcs == t.pcs && u.sh.cell == Some(t.sh.stores) && u.sh.stores == t.sh.stores + 1
            && (t.sh.cell.Some? ==>
                  t.sh.cell.value in u.sh.places && u.sh.places[t.sh.cell.value] == Gone(Overwritten))
  {
    Reachable(s, moves);
    var t := Execute(s, moves);
    QuietIsWaiting(t);
    ThreeMoves(t, (i, 0), (i, 0), (i, 0));
    var t1 := Move(t, (i, 0));
    var t2 := Move(t1, (i, 0));
    var t3 := Move(t2, (i, 0));
    assert t3.pcs == t.pcs;
  }

  /** A `take` that runs alone returns the waker in the cell, if there is one, and leaves the
      cell empty: what was registered last is what is woken. */
  lemma TakeReturnsLast(s: State, moves: seq<(nat, nat)>, i: nat)
    requires Init(s) && i < |s.pcs| && Quiet(Execute(s, moves))
    ensures var t := Execute(s, moves);
            var u := Execute(t, [(i, 1), (i, 1), (i, 1)]);
            && u.pcs == t.pcs[i := TakeReturn(t.sh.cell)] && u.sh.cell == None
            && u.sh.registering.Off? && u.sh.waking.Off?
  {
    Reachable(s, moves);
    var t := Execute(s, moves);
    QuietIsWaiting(t);
    ThreeMoves(t, (i, 1), (i, 1), (i, 1));
    var t1 := Move(t, (i, 1));
    var t2 := Move(t1, (i, 1));
    var t3 := Move(t2, (i, 1));
    assert t3.pcs == t.pcs[i := TakeReturn(t.sh.cell)];
  }
}
