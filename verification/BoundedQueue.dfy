/** The bounded queue of platform/queue/bounded.rs: a ring of stamped slots. The
    n-th push and the n-th pop use slot `n % cap`; a slot's stamp tells whose turn it
    is. Positions are claimed by compare-exchange on `tail` and `head`. */
module BoundedQueue {
  import opened Tally

  /** A slot waiting for push number `n`, or holding the value of push number `n`.
      `BoundedWords` shows that the integer stamps of the source are these. */
  datatype Stamp = Free(n: nat) | Full(n: nat)

  datatype Slot = Slot(stamp: Stamp, value: Option<int>)

  /** `pushed` is the history of claimed pushes, `popped` of popped positions;
      `pushers` and `poppers` name the thread at work on a claimed position. */
  datatype Shared = Shared(
    cap: nat, tail: nat, closed: Flag, head: nat, slots: seq<Slot>,
    pushed: seq<int>, popped: map<nat, int>,
    pushers: map<nat, nat>, poppers: map<nat, nat>)

  predicate Shaped(a: Shared) { a.cap > 0 && |a.slots| == a.cap }

  function Index(a: Shared, n: nat): nat
    requires a.cap > 0
  {
    n % a.cap
  }

  function StampAt(a: Shared, n: nat): Stamp
    requires Shaped(a)
  {
    a.slots[Index(a, n)].stamp
  }

  function ValueAt(a: Shared, n: nat): Option<int>
    requires Shaped(a)
  {
    a.slots[Index(a, n)].value
  }

  function SetStamp(a: Shared, n: nat, s: Stamp): seq<Slot>
    requires Shaped(a)
  {
    a.slots[Index(a, n) := a.slots[Index(a, n)].(stamp := s)]
  }

  function SetValue(a: Shared, n: nat, v: int): seq<Slot>
    requires Shaped(a)
  {
    a.slots[Index(a, n) := a.slots[Index(a, n)].(value := Some(v))]
  }

  /** The new shared states: position `t` or `h` goes to thread `i`, the owner of `n` stores
      its value and publishes it, the popper of `n` frees the slot for the next lap. */
  function TailClaimed(a: Shared, i: nat, t: nat, v: int): Shared {
    a.(tail := t + 1, pushed := a.pushed + [v], pushers := a.pushers[t := i])
  }

  function HeadClaimed(a: Shared, i: nat, h: nat): Shared {
    a.(head := h + 1, poppers := a.poppers[h := i])
  }

  function Stored(a: Shared, n: nat, v: int): Shared
    requires Shaped(a)
  {
    a.(slots := SetValue(a, n, v))
  }

  function Published(a: Shared, n: nat): Shared
    requires Shaped(a)
  {
    a.(slots := SetStamp(a, n, Full(n)), pushers := a.pushers - {n})
  }

  function Released(a: Shared, n: nat): Shared
    requires Shaped(a)
  {
    a.(slots := SetStamp(a, n, Free(n + a.cap)), poppers := a.poppers - {n})
  }

  datatype PushPc =
    | PushLoad(v: int)
    | PushLoop(v: int, t: nat, cl: Flag)
    | PushCas(v: int, t: nat)
    | PushFull(v: int, t: nat)
    | PushWrite(v: int, n: nat)
    | PushStamp(v: int, n: nat)

  datatype PopPc =
    | PopLoad
    | PopLoop(h: nat)
    | PopCas(h: nat)
    | PopTail(h: nat)
    | PopRead(n: nat)
    | PopStamp(n: nat, x: int)

  /** `seen` is the true length at the instant the head was loaded. */
  datatype LenPc =
    | LenTail
    | LenHead(t: nat, cl: Flag)
    | LenCheck(t: nat, cl: Flag, h: nat, seen: int)

  /** The answers a call gives back; `Pushed` and `Popped` carry the position,
      `Closing` whether the queue was still open. */
  datatype Answer =
    | Pushed(n: nat)
    | WasFull
    | WasClosed
    | Popped(n: nat, x: int)
    | WasEmpty
    | Length(len: int)
    | Closing(first: Flag)

  datatype Pc = Idle | OnPush(push: PushPc) | OnPop(pop: PopPc) | OnLen(len: LenPc) | Said(answer: Answer)

  datatype State = State(sh: Shared, pcs: seq<Pc>)

  datatype Out = Out(sh: Shared, pc: Pc)

  function DoPush(a: Shared, i: nat, p: PushPc, c: nat): Out
    requires Shaped(a)
  {
    match p
    case PushLoad(v) => Out(a, OnPush(PushLoop(v, a.tail, a.closed)))
    case PushLoop(v, t, cl) =>
      if cl.On? then Out(a, Said(WasClosed))
      else if StampAt(a, t) == Free(t) then Out(a, OnPush(PushCas(v, t)))
      else if t >= a.cap && StampAt(a, t) == Full(t - a.cap) then Out(a, OnPush(PushFull(v, t)))
      else Out(a, OnPush(PushLoad(v)))
    case PushCas(v, t) =>
      if c == 0 || a.tail != t || a.closed.On? then Out(a, OnPush(PushLoop(v, a.tail, a.closed)))
      else Out(TailClaimed(a, i, t, v), OnPush(PushWrite(v, t)))
    case PushFull(v, t) =>
      if a.head + a.cap == t then Out(a, Said(WasFull)) else Out(a, OnPush(PushLoad(v)))
    case PushWrite(v, n) => Out(Stored(a, n, v), OnPush(PushStamp(v, n)))
    case PushStamp(v, n) =>
      Out(Published(a, n), Said(Pushed(n)))
  }

  function DoPop(a: Shared, i: nat, p: PopPc, c: nat): Out
    requires Shaped(a)
  {
    match p
    case PopLoad => Out(a, OnPop(PopLoop(a.head)))
    case PopLoop(h) =>
      if StampAt(a, h) == Full(h) then Out(a, OnPop(PopCas(h)))
      else if StampAt(a, h) == Free(h) then Out(a, OnPop(PopTail(h)))
      else Out(a, OnPop(PopLoad))
    case PopCas(h) =>
      if c == 0 || a.head != h then Out(a, OnPop(PopLoop(a.head)))
      else Out(HeadClaimed(a, i, h), OnPop(PopRead(h)))
    case PopTail(h) =>
      if a.tail == h then Out(a, Said(if a.closed.On? then WasClosed else WasEmpty))
      else Out(a, OnPop(PopLoad))
    case PopRead(n) =>
      var x := if ValueAt(a, n).Some? then ValueAt(a, n).value else 0;
      Out(a.(popped := a.popped[n := x]), OnPop(PopStamp(n, x)))
    case PopStamp(n, x) =>
      Out(Released(a, n), Said(Popped(n, x)))
  }

  /** `len` from the slot indices of head and tail and whether the words agree. */
  function LenOf(cap: nat, h: nat, t: nat): int
    requires cap > 0
  {
    var hix := h % cap;
    var tix := t % cap;
    if hix < tix then tix - hix
    else if hix > tix then cap - hix + tix
    else if t == h then 0
    else cap
  }

  function DoLen(a: Shared, p: LenPc): Out
    requires Shaped(a)
  {
    match p
    case LenTail => Out(a, OnLen(LenHead(a.tail, a.closed)))
    case LenHead(t, cl) => Out(a, OnLen(LenCheck(t, cl, a.head, a.tail - a.head)))
    case LenCheck(t, cl, h, _) =>
      if a.tail == t && a.closed == cl then Out(a, Said(Length(LenOf(a.cap, h, t)))) else Out(a, OnLen(LenTail))
  }

  function DoIdle(a: Shared, c: nat): Out {
    if c == 0 then Out(a.(closed := On), Said(Closing(Flagged(a.closed.Off?))))
    else if c == 1 then Out(a, OnPop(PopLoad))
    else if c == 2 then Out(a, OnLen(LenTail))
    else Out(a, OnPush(PushLoad(c)))
  }

  function Do(a: Shared, i: nat, p: Pc, c: nat): Out
    requires Shaped(a)
  {
    match p
    case Idle => DoIdle(a, c)
    case OnPush(x) => DoPush(a, i, x, c)
    case OnPop(x) => DoPop(a, i, x, c)
    case OnLen(x) => DoLen(a, x)
    case Said(_) => Out(a, Idle)
  }

  function Move(s: State, move: (nat, nat)): (t: State)
    requires Shaped(s.sh)
    ensures Shaped(t.sh) && t.sh.cap == s.sh.cap && |t.pcs| == |s.pcs|
  {
    if move.0 < |s.pcs| then
      var o := Do(s.sh, move.0, s.pcs[move.0], move.1);
      State(o.sh, s.pcs[move.0 := o.pc])
    else s
  }

  function Execute(s: State, moves: seq<(nat, nat)>): (t: State)
    requires Shaped(s.sh)
    ensures Shaped(t.sh) && t.sh.cap == s.sh.cap && |t.pcs| == |s.pcs|
    decreases |moves|
  {
    if moves == [] then s else Execute(Move(s, moves[0]), moves[1..])
  }

  predicate Init(s: State) {
    && s.sh.cap > 0 && |s.sh.slots| == s.sh.cap
    && s.sh == Shared(s.sh.cap, 0, Off, 0, s.sh.slots, [], map[], map[], map[])
    && (forall i :: 0 <= i < s.sh.cap ==> s.sh.slots[i] == Slot(Free(i), None))
    && forall i :: 0 <= i < |s.pcs| ==> s.pcs[i] == Idle
  }
}
