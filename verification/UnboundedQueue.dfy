/** The unbounded queue of platform/queue/unbounded.rs: positions are claimed by
    compare-exchange on `head` and `tail`; each lap of 32 positions lives in one
    block of 31 slots, the last position of a lap standing for the hand-over to the
    next block; the poppers of a block pass one another the duty to free it. */
module UnboundedQueue {
  import opened Tally

  const LAP: nat := 32
  const BLOCK_CAP: nat := 31

  function Offset(n: nat): nat { n % 32 }
  function Lap(n: nat): nat { n / 32 }
  function At(block: nat, offset: nat): nat { 32 * block + offset }

  /** Positions that hold a value. */
  predicate IsSlot(n: nat) { n % 32 != 31 }

  /** Who has to free a block: nobody yet, the popper of slot `k` once it has read
      (DESTROY is set there), the popper that claimed position `n`, or it is freed. */
  datatype Token = NotYet | AtSlot(k: nat) | With(n: nat) | Freed

  /** `tail`/`head` are the indices without their low bit; `closed` is the low bit of
      the tail, `mark` that of the head. A slot is named by its position; `written`,
      `read` and `doomed` are the WRITE, READ and DESTROY bits; `linked` holds the
      blocks whose `next` is set. History: the value claimed for each position, the
      value popped from it, which thread pushes or pops a position at the moment,
      which thread installs the first block, and who must free each block. */
  datatype Shared = Shared(
    tail: nat, closed: Flag, tailBlock: Option<nat>,
    head: nat, mark: Flag, headBlock: Option<nat>,
    vals: map<nat, int>, written: set<nat>, read: set<nat>, doomed: set<nat>, linked: set<nat>,
    claimed: map<nat, int>, popped: map<nat, int>,
    pushers: map<nat, nat>, poppers: map<nat, nat>, installer: Option<nat>,
    tokens: map<nat, Token>, frees: multiset<nat>)

  function TokenOf(a: Shared, block: nat): Token {
    if block in a.tokens then a.tokens[block] else NotYet
  }

  datatype PushPc =
    | PushLoad(v: int)
    | PushBlock(v: int, t: nat, cl: Flag)
    | PushLoop(v: int, t: nat, cl: Flag, b: Option<nat>)
    | PushHead(v: int, t: nat, cl: Flag)
    | PushNext(v: int, n: nat, blk: nat)
    | PushSkip(v: int, n: nat, blk: nat)
    | PushLink(v: int, n: nat, blk: nat)
    | PushWrite(v: int, n: nat, blk: nat)
    | PushMark(v: int, n: nat, blk: nat)

  datatype PopPc =
    | PopLoad
    | PopBlock(h: nat, m: Flag)
    | PopLoop(h: nat, m: Flag, b: Option<nat>)
    | PopCas(h: nat, m: Flag, m': Flag, b: Option<nat>)
    | PopNext(n: nat, blk: nat)
    | PopPeek(n: nat, blk: nat)
    | PopHead(n: nat, blk: nat, more: Flag)
    | PopSkip(n: nat, blk: nat, more: Flag)
    | PopWait(n: nat, blk: nat)
    | PopRead(n: nat, blk: nat)
    | PopMark(n: nat, blk: nat)
    | FreeLoad(n: nat, blk: nat, j: nat)
    | FreeOr(n: nat, blk: nat, j: nat)

  /** `seen` is the true length at the instant the head was loaded. */
  datatype LenPc =
    | LenTail
    | LenHead(t: nat, cl: Flag)
    | LenCheck(t: nat, cl: Flag, h: nat, seen: nat)

  /** The answers a call gives back; `Pushed` and `Popped` carry the position,
      `Closing` whether the queue was still open. */
  datatype Answer =
    | Pushed(n: nat)
    | WasClosed
    | Popped(n: nat, x: int)
    | WasEmpty
    | Length(len: int)
    | Closing(first: Flag)

  datatype Pc = Idle | OnPush(push: PushPc) | OnPop(pop: PopPc) | OnLen(len: LenPc) | Said(answer: Answer)

  datatype State = State(sh: Shared, pcs: seq<Pc>)

  datatype Out = Out(sh: Shared, pc: Pc)

  // ---------------------------------------------------------------- push

  function Without(m: map<nat, nat>, n: nat): map<nat, nat> { m - {n} }

  /** Position `t` goes to thread `i`. */
  function TailClaimed(a: Shared, i: nat, t: nat, v: int): Shared {
    a.(tail := t + 1, claimed := a.claimed[t := v], pushers := a.pushers[t := i])
  }

  function DoPush(a: Shared, i: nat, p: PushPc, c: nat): Out {
    match p
    case PushLoad(v) => Out(a, OnPush(PushBlock(v, a.tail, a.closed)))
    case PushBlock(v, t, cl) => Out(a, OnPush(PushLoop(v, t, cl, a.tailBlock)))
    case PushLoop(v, t, cl, b) =>
      if cl.On? then Out(a, Said(WasClosed))
      else if Offset(t) == BLOCK_CAP then Out(a, OnPush(PushLoad(v)))
      else if b.None? then
        if a.tailBlock.None? then
          Out(a.(tailBlock := Some(0), installer := Some(i)), OnPush(PushHead(v, t, cl)))
        else Out(a, OnPush(PushLoad(v)))
      else if c == 0 || a.tail != t || a.closed.On? then Out(a, OnPush(PushBlock(v, a.tail, a.closed)))
      else
        Out(TailClaimed(a, i, t, v),
            OnPush(if Offset(t) + 1 == BLOCK_CAP then PushNext(v, t, b.value) else PushWrite(v, t, b.value)))
    case PushHead(v, t, cl) =>
      Out(a.(headBlock := Some(0), installer := None), OnPush(PushLoop(v, t, cl, Some(0))))
    case PushNext(v, n, blk) => Out(a.(tailBlock := Some(blk + 1)), OnPush(PushSkip(v, n, blk)))
    case PushSkip(v, n, blk) => Out(a.(tail := a.tail + 1), OnPush(PushLink(v, n, blk)))
    case PushLink(v, n, blk) => Out(a.(linked := a.linked + {blk}), OnPush(PushWrite(v, n, blk)))
    case PushWrite(v, n, blk) => Out(a.(vals := a.vals[At(blk, Offset(n)) := v]), OnPush(PushMark(v, n, blk)))
    case PushMark(v, n, blk) =>
      Out(a.(written := a.written + {At(blk, Offset(n))}, pushers := Without(a.pushers, n)), Said(Pushed(n)))
  }

  // ---------------------------------------------------------------- pop

  /** Position `h` goes to thread `i`. */
  function HeadClaimed(a: Shared, i: nat, h: nat, m: Flag): Shared {
    a.(head := h + 1, mark := m, poppers := a.poppers[h := i])
  }

  /** The value of position `n` is read; the popper of a block's last slot takes up the
      duty to free the block. */
  function Took(a: Shared, n: nat, x: int): Shared { a.(popped := a.popped[n := x]) }

  function TookLast(a: Shared, n: nat, blk: nat, x: int): Shared {
    a.(popped := a.popped[n := x], tokens := a.tokens[blk := With(n)])
  }

  /** READ is set: with DESTROY there the duty moves to the popper, else it is done. */
  function ReadWithDuty(a: Shared, n: nat, blk: nat): Shared {
    a.(read := a.read + {At(blk, Offset(n))}, tokens := a.tokens[blk := With(n)])
  }

  function ReadAndLeft(a: Shared, n: nat, blk: nat): Shared {
    a.(read := a.read + {At(blk, Offset(n))}, poppers := Without(a.poppers, n))
  }

  /** DESTROY is set on slot `j`; if its popper has not read, the duty is handed over. */
  function Doomed(a: Shared, blk: nat, j: nat): Shared { a.(doomed := a.doomed + {At(blk, j)}) }

  function HandedOver(a: Shared, n: nat, blk: nat, j: nat): Shared {
    a.(doomed := a.doomed + {At(blk, j)}, tokens := a.tokens[blk := AtSlot(j)], poppers := Without(a.poppers, n))
  }

  function BlockFreed(a: Shared, n: nat, blk: nat): Shared {
    a.(tokens := a.tokens[blk := Freed], frees := a.frees + multiset{blk}, poppers := Without(a.poppers, n))
  }

  /** The popper of position `n` returns the value it has read. */
  function Gives(a: Shared, n: nat): Pc { Said(Popped(n, if n in a.popped then a.popped[n] else 0)) }

  function DoPop(a: Shared, i: nat, p: PopPc, c: nat): Out {
    match p
    case PopLoad => Out(a, OnPop(PopBlock(a.head, a.mark)))
    case PopBlock(h, m) => Out(a, OnPop(PopLoop(h, m, a.headBlock)))
    case PopLoop(h, m, b) =>
      if Offset(h) == BLOCK_CAP then Out(a, OnPop(PopLoad))
      else if m.On? then Out(a, OnPop(PopCas(h, m, On, b)))
      else if h == a.tail then Out(a, Said(if a.closed.On? then WasClosed else WasEmpty))
      else Out(a, OnPop(PopCas(h, m, Flagged(Lap(h) != Lap(a.tail)), b)))
    case PopCas(h, m, m', b) =>
      if b.None? then Out(a, OnPop(PopLoad))
      else if c == 0 || a.head != h || a.mark != m then Out(a, OnPop(PopBlock(a.head, a.mark)))
      else
        Out(HeadClaimed(a, i, h, m'),
            OnPop(if Offset(h) + 1 == BLOCK_CAP then PopNext(h, b.value) else PopWait(h, b.value)))
    case PopNext(n, blk) => Out(a, OnPop(if blk in a.linked then PopPeek(n, blk) else p))
    case PopPeek(n, blk) => Out(a, OnPop(PopHead(n, blk, Flagged(blk + 1 in a.linked))))
    case PopHead(n, blk, more) => Out(a.(headBlock := Some(blk + 1)), OnPop(PopSkip(n, blk, more)))
    case PopSkip(n, blk, more) => Out(a.(head := n + 2, mark := more), OnPop(PopWait(n, blk)))
    case PopWait(n, blk) => Out(a, OnPop(if At(blk, Offset(n)) in a.written then PopRead(n, blk) else p))
    case PopRead(n, blk) =>
      var x := if At(blk, Offset(n)) in a.vals then a.vals[At(blk, Offset(n))] else 0;
      if Offset(n) + 1 == BLOCK_CAP then Out(TookLast(a, n, blk, x), OnPop(FreeLoad(n, blk, 0)))
      else Out(Took(a, n, x), OnPop(PopMark(n, blk)))
    case PopMark(n, blk) =>
      if At(blk, Offset(n)) in a.doomed then
        Out(ReadWithDuty(a, n, blk), OnPop(FreeLoad(n, blk, Offset(n) + 1)))
      else Out(ReadAndLeft(a, n, blk), Gives(a, n))
    case FreeLoad(n, blk, j) =>
      if j >= BLOCK_CAP - 1 then Out(BlockFreed(a, n, blk), Gives(a, n))
      else Out(a, OnPop(if At(blk, j) in a.read then FreeLoad(n, blk, j + 1) else FreeOr(n, blk, j)))
    case FreeOr(n, blk, j) =>
      if At(blk, j) in a.read then Out(Doomed(a, blk, j), OnPop(FreeLoad(n, blk, j + 1)))
      else Out(HandedOver(a, n, blk, j), Gives(a, n))
  }

  function DoIdle(a: Shared, c: nat): Out {
    if c == 0 then Out(a.(closed := On), Said(Closing(Flagged(a.closed.Off?))))
    else if c == 1 then Out(a, OnPop(PopLoad))
    else if c == 2 then Out(a, OnLen(LenTail))
    else Out(a, OnPush(PushLoad(c)))
  }

  // ---------------------------------------------------------------- length

  /** The value positions from `h` up to `t`, in order. */
  function Slots(h: nat, t: nat): (r: seq<nat>)
    decreases t
  {
    if t <= h then [] else Slots(h, t - 1) + (if IsSlot(t - 1) then [t - 1] else [])
  }

  /** A position past the hand-over position, if it is one. */
  function Past(n: nat): nat { if n % LAP == LAP - 1 then n + 1 else n }

  /** `len` from a head and a tail position: both skip a hand-over position and count
      from the start of the head's lap. */
  function LenOf(h: nat, t: nat): int {
    var lap := Past(h) / LAP;
    var tail := Past(t) - lap * LAP;
    var head := Past(h) - lap * LAP;
    tail - head - tail / LAP
  }

  function DoLen(a: Shared, p: LenPc): Out {
    match p
    case LenTail => Out(a, OnLen(LenHead(a.tail, a.closed)))
    case LenHead(t, cl) => Out(a, OnLen(LenCheck(t, cl, a.head, |Slots(a.head, a.tail)|)))
    case LenCheck(t, cl, h, _) =>
      if a.tail == t && a.closed == cl then Out(a, Said(Length(LenOf(h, t)))) else Out(a, OnLen(LenTail))
  }

  // ---------------------------------------------------------------- runs

  function Do(a: Shared, i: nat, p: Pc, c: nat): Out {
    match p
    case Idle => DoIdle(a, c)
    case OnPush(x) => DoPush(a, i, x, c)
    case OnPop(x) => DoPop(a, i, x, c)
    case OnLen(x) => DoLen(a, x)
    case Said(_) => Out(a, Idle)
  }

  function Move(s: State, move: (nat, nat)): State {
    if move.0 < |s.pcs| then
      var o := Do(s.sh, move.0, s.pcs[move.0], move.1);
      State(o.sh, s.pcs[move.0 := o.pc])
    else s
  }

  function Execute(s: State, moves: seq<(nat, nat)>): State
    decreases |moves|
  {
    if moves == [] then s else Execute(Move(s, moves[0]), moves[1..])
  }

  predicate Init(s: State) {
    && s.sh == Shared(0, Off, None, 0, Off, None, map[], {}, {}, {}, {}, map[], map[],
                      map[], map[], None, map[], multiset{})
    && forall i :: 0 <= i < |s.pcs| ==> s.pcs[i] == Idle
  }
}
