/** Thread parking, platform/parking/parking.rs: one parker, any number of unparkers, a
    three-valued state, a lock and a condition variable with spurious wake-ups. */
module Parker {
  import opened Tally

  datatype Token = EMPTY | PARKED | NOTIFIED

  datatype Lock = Open | ByParker | ByUnparker(thread: nat)

  /** Histories: `grants` counts the moves of the state into NOTIFIED, `collected` the calls
      of `park` that came back true; `duty` is the unparker that last found PARKED. */
  datatype Shared = Shared(token: Token, lock: Lock, grants: nat, collected: nat, duty: Option<nat>)

  /** `timed` tells a park with a timeout from one without; every call ends at `Returned`. */
  datatype ParkPc =
    | Running
    | TakeLock(timed: Flag)
    | Announce(timed: Flag)
    | Collect(timed: Flag)
    | BeforeWait(timed: Flag)
    | Asleep(timed: Flag)
    | Awake(timed: Flag)
    | Check(timed: Flag)
    | Unlock(timed: Flag, result: Flag)
    | Returned(timed: Flag, result: Flag)
    | Panicked

  datatype UnparkPc = Outside | GetLock | DropLock | NotifyOne

  datatype State = State(sh: Shared, parker: ParkPc, unparkers: seq<UnparkPc>)

  datatype ParkOut = ParkOut(sh: Shared, pc: ParkPc)

  /** One step of the parker; `c` chooses the call, timeouts and spurious wake-ups. */
  function DoPark(a: Shared, p: ParkPc, c: nat): ParkOut {
    match p
    case Running =>
      var timed := Flagged(c <= 1);
      if a.token == NOTIFIED then ParkOut(a.(token := EMPTY), Returned(timed, On))
      else if c == 0 then ParkOut(a, Returned(timed, Off))
      else ParkOut(a, TakeLock(timed))
    case TakeLock(timed) => if a.lock.Open? then ParkOut(a.(lock := ByParker), Announce(timed)) else ParkOut(a, p)
    case Announce(timed) =>
      match a.token {
        case EMPTY => ParkOut(a.(token := PARKED), BeforeWait(timed))
        case NOTIFIED => ParkOut(a, Collect(timed))
        case PARKED => ParkOut(a, Panicked)
      }
    case Collect(timed) =>
      if a.token == NOTIFIED then ParkOut(a.(token := EMPTY), Unlock(timed, On))
      else ParkOut(a.(token := EMPTY), Panicked)
    case BeforeWait(timed) => ParkOut(a.(lock := Open), Asleep(timed))
    case Asleep(timed) => ParkOut(a, if c == 0 then p else Awake(timed))
    case Awake(timed) => if a.lock.Open? then ParkOut(a.(lock := ByParker), Check(timed)) else ParkOut(a, p)
    case Check(timed) =>
      if timed.Off? then
        if a.token == NOTIFIED then ParkOut(a.(token := EMPTY), Unlock(timed, On)) else ParkOut(a, BeforeWait(timed))
      else if a.token == EMPTY then ParkOut(a, Panicked)
      else ParkOut(a.(token := EMPTY), Unlock(timed, Flagged(a.token == NOTIFIED)))
    case Unlock(timed, result) => ParkOut(a.(lock := Open), Returned(timed, result))
    case Returned(_, result) => ParkOut(a.(collected := a.collected + (if result.On? then 1 else 0)), Running)
    case Panicked => ParkOut(a, p)
  }

  /** One step of unparker `i`; `notify_one` wakes the parker if it is asleep. */
  function DoUnpark(s: State, i: nat): State
    requires i < |s.unparkers|
  {
    var a := s.sh;
    match s.unparkers[i]
    case Outside =>
      match a.token {
        case EMPTY => s.(sh := a.(token := NOTIFIED, grants := a.grants + 1))
        case NOTIFIED => s
        case PARKED =>
          s.(sh := a.(token := NOTIFIED, grants := a.grants + 1, duty := Some(i)),
             unparkers := s.unparkers[i := GetLock])
      }
    case GetLock =>
      if a.lock.Open? then s.(sh := a.(lock := ByUnparker(i)), unparkers := s.unparkers[i := DropLock]) else s
    case DropLock => s.(sh := a.(lock := Open), unparkers := s.unparkers[i := NotifyOne])
    case NotifyOne =>
      s.(parker := if s.parker.Asleep? then Awake(s.parker.timed) else s.parker, unparkers := s.unparkers[i := Outside])
  }

  /** Move 0 is the parker's, move `i + 1` that of unparker `i`. */
  function Move(s: State, move: (nat, nat)): (t: State)
    ensures |t.unparkers| == |s.unparkers|
  {
    if move.0 == 0 then
      var o := DoPark(s.sh, s.parker, move.1);
      s.(sh := o.sh, parker := o.pc)
    else if move.0 <= |s.unparkers| then DoUnpark(s, move.0 - 1)
    else s
  }

  function Execute(s: State, moves: seq<(nat, nat)>): (t: State)
    ensures |t.unparkers| == |s.unparkers|
    decreases |moves|
  {
    if moves == [] then s else Execute(Move(s, moves[0]), moves[1..])
  }

  predicate Init(s: State) {
    && s.sh == Shared(EMPTY, Open, 0, 0, None) && s.parker == Running
    && forall i :: 0 <= i < |s.unparkers| ==> s.unparkers[i] == Outside
  }

  // ---------------------------------------------------------------- the invariant

  /** What the parker knows of the state at each point. */
  predicate ParkInv(a: Shared, p: ParkPc) {
    match p
    case Running => a.token != PARKED
    case TakeLock(_) => a.token != PARKED
    case Announce(_) => a.token != PARKED
    case Collect(_) => a.token == NOTIFIED
    case BeforeWait(_) => a.token != EMPTY
    case Asleep(_) => a.token != EMPTY
    case Awake(_) => a.token != EMPTY
    case Check(_) => a.token != EMPTY
    case Unlock(timed, result) => a.token != PARKED && (timed.On? || result.On?)
    case Returned(timed, result) => a.token != PARKED && (timed.On? || result.On?)
    case Panicked => false
  }

  predicate HoldsLock(p: ParkPc) { p.Announce? || p.Collect? || p.BeforeWait? || p.Check? || p.Unlock? }

  predicate OnItsWay(u: UnparkPc) { u.GetLock? || u.DropLock? || u.NotifyOne? }

  /** A token set while the parker sleeps, or is about to, is on its way to it; while
      the parker still holds the lock, the unparker cannot have passed it. */
  predicate DutyInv(s: State) {
    (s.parker.BeforeWait? || s.parker.Asleep?) && s.sh.token == NOTIFIED ==>
      && s.sh.duty.Some? && s.sh.duty.value < |s.unparkers|
      && (if s.parker.BeforeWait? then s.unparkers[s.sh.duty.value].GetLock?
          else OnItsWay(s.unparkers[s.sh.duty.value]))
  }

  /** Tokens are conserved: each one granted is still set, or was returned by `park`. */
  predicate Counted(s: State) {
    s.sh.grants == s.sh.collected + Bit(HasToken(s.parker)) + Bit(s.sh.token == NOTIFIED)
  }

  /** A park that has consumed a token and not yet come back. */
  predicate HasToken(p: ParkPc) { (p.Unlock? || p.Returned?) && p.result.On? }

  predicate LockInv(s: State) {
    && (s.sh.lock == ByParker <==> HoldsLock(s.parker))
    && forall i :: 0 <= i < |s.unparkers| ==> (s.sh.lock == ByUnparker(i) <==> s.unparkers[i].DropLock?)
  }

  predicate Inv(s: State) {
    ParkInv(s.sh, s.parker) && DutyInv(s) && Counted(s) && LockInv(s)
  }

  lemma ParkKeeps(s: State, c: nat)
    requires Inv(s)
    ensures Inv(Move(s, (0, c)))
  {
  }

  lemma UnparkKeeps(s: State, i: nat)
    requires Inv(s) && i < |s.unparkers|
    ensures Inv(DoUnpark(s, i))
  {
  }

  lemma {:induction false} RunKeeps(s: State, moves: seq<(nat, nat)>)
    requires Inv(s)
    ensures Inv(Execute(s, moves))
    decreases |moves|
  {
    if moves != [] {
      if moves[0].0 == 0 {
        ParkKeeps(s, moves[0].1);
      } else if moves[0].0 <= |s.unparkers| {
        UnparkKeeps(s, moves[0].0 - 1);
      }
      RunKeeps(Move(s, moves[0]), moves[1..]);
    }
  }

  lemma Reachable(s: State, moves: seq<(nat, nat)>)
    requires Init(s)
    ensures Inv(Execute(s, moves))
  {
    RunKeeps(s, moves);
  }

  // ---------------------------------------------------------------- theorems

  /** No run reaches a panic or a failed assertion of `park` or `unpark`. */
  lemma NeverPanics(s: State, moves: seq<(nat, nat)>)
    requires Init(s)
    ensures !Execute(s, moves).parker.Panicked?
  {
    Reachable(s, moves);
  }

  /** Tokens are conserved over every run. */
  lemma TokensAreConserved(s: State, moves: seq<(nat, nat)>)
    requires Init(s)
    ensures var t := Execute(s, moves);
            t.sh.grants == t.sh.collected + Bit(HasToken(t.parker)) + Bit(t.sh.token == NOTIFIED)
  {
    Reachable(s, moves);
  }

  /** Every call of `park`, on the fast path, with a zero timeout or after a wait, answers
      true exactly if one of its steps consumed a token, and false only if it has a
      timeout; no other step of the parker takes a token away. */
  lemma ParkReturnsByToken(s: State, moves: seq<(nat, nat)>, c: nat)
    requires Init(s)
    ensures var t := Execute(s, moves);
            var u := Move(t, (0, c));
            && (t.sh.token == NOTIFIED && u.sh.token != NOTIFIED <==> !HasToken(t.parker) && HasToken(u.parker))
            && (t.parker.Returned? ==> t.parker.timed.On? || t.parker.result.On?)
            && (t.parker.Returned? ==> u.sh.collected == t.sh.collected + Bit(t.parker.result.On?))
  {
    Reachable(s, moves);
  }

  /** The parker never sleeps on a set token unless an unparker is on its way to
      `notify_one`. */
  lemma NoLostToken(s: State, moves: seq<(nat, nat)>)
    requires Init(s)
    ensures var t := Execute(s, moves);
            t.parker.Asleep? && t.sh.token == NOTIFIED ==>
              exists i :: 0 <= i < |t.unparkers| && OnItsWay(t.unparkers[i])
  {
    Reachable(s, moves);
    var t := Execute(s, moves);
    if t.parker.Asleep? && t.sh.token == NOTIFIED {
      assert OnItsWay(t.unparkers[t.sh.duty.value]);
    }
  }

  /** Every `unpark` sets the token with its first step; it counts as a grant, and answers
      true, exactly if the token was not set before, and is on its way to `notify_one`
      exactly if it found the parker waiting. */
  lemma UnparkGrants(s: State, moves: seq<(nat, nat)>, i: nat, c: nat)
    requires Init(s) && i < |s.unparkers| && Execute(s, moves).unparkers[i].Outside?
    ensures var t := Execute(s, moves);
            var u := Move(t, (i + 1, c));
            && u.sh.token == NOTIFIED && u.sh.grants == t.sh.grants + Bit(t.sh.token != NOTIFIED)
            && (t.sh.token == PARKED <==> OnItsWay(u.unparkers[i]))
  {
    Reachable(s, moves);
  }

  // ---------------------------------------------------------------- calls that run alone

  /** With the token set, `park` answers true at once, whatever its timeout. */
  lemma ParkTakesToken(s: State, moves: seq<(nat, nat)>, c: nat)
    requires Init(s) && Execute(s, moves).parker == Running && Execute(s, moves).sh.token == NOTIFIED
    ensures var t := Execute(s, moves);
            var u := Move(t, (0, c));
            u.parker == Returned(Flagged(c <= 1), On) && u.sh.token == EMPTY
  {
  }

  /** Without a token, `park` goes to sleep, whatever its timeout. */
  lemma ParkSleeps(s: State, moves: seq<(nat, nat)>, c: nat)
    requires Init(s) && Execute(s, moves).parker == Running && 1 <= c
    requires Execute(s, moves).sh.token == EMPTY && Execute(s, moves).sh.lock.Open?
    ensures var t := Execute(s, moves);
            var u := Execute(t, [(0, c), (0, c), (0, c), (0, c)]);
            u == t.(sh := t.sh.(token := PARKED), parker := Asleep(Flagged(c <= 1)))
  {
    var t := Execute(s, moves);
    var m := (0, c);
    var t1 := Move(t, m);
    var t2 := Move(t1, m);
    var t3 := Move(t2, m);
    FourMoves(t, m, m, m, m);
  }

  lemma OneMove(s: State, m: (nat, nat), rest: seq<(nat, nat)>)
    ensures Execute(s, [m] + rest) == Execute(Move(s, m), rest)
  {
    assert ([m] + rest)[1..] == rest;
  }

  lemma ThreeMoves(s: State, a: (nat, nat), b: (nat, nat), c: (nat, nat))
    ensures Execute(s, [a, b, c]) == Move(Move(Move(s, a), b), c)
  {
    OneMove(s, a, [b, c]);
    OneMove(Move(s, a), b, [c]);
    OneMove(Move(Move(s, a), b), c, []);
  }

  lemma FourMoves(s: State, a: (nat, nat), b: (nat, nat), c: (nat, nat), d: (nat, nat))
    ensures Execute(s, [a, b, c, d]) == Move(Move(Move(Move(s, a), b), c), d)
  {
    OneMove(s, a, [b, c, d]);
    ThreeMoves(Move(s, a), b, c, d);
  }

  /** An `unpark` that runs alone wakes a sleeping parker, whose `park` then answers true and
      leaves no token behind. */
  lemma UnparkWakes(s: State, moves: seq<(nat, nat)>, i: nat, timed: Flag)
    requires Init(s) && i < |s.unparkers| && Execute(s, moves).unparkers[i].Outside?
    requires Execute(s, moves).parker == Asleep(timed) && Execute(s, moves).sh.token == PARKED
    requires Execute(s, moves).sh.lock.Open?
    ensures var t := Execute(s, moves);
            var k := (i + 1, 0);
            var u := Execute(Execute(t, [k, k, k, k]), [(0, 1), (0, 1), (0, 1)]);
            && u.parker == Returned(timed, On) && u.sh.token == EMPTY && u.sh.lock.Open?
            && u.unparkers == t.unparkers
  {
    var t := Execute(s, moves);
    var k := (i + 1, 0);
    FourMoves(t, k, k, k, k);
    var t1 := Move(t, k);
    var t2 := Move(t1, k);
    var t3 := Move(t2, k);
    var t4 := Move(t3, k);
    assert t4.unparkers == t.unparkers && t4.parker == Awake(timed) && t4.sh.token == NOTIFIED;
    ThreeMoves(t4, (0, 1), (0, 1), (0, 1));
    var t5 := Move(t4, (0, 1));
    var t6 := Move(t5, (0, 1));
  }
}
