/** The asynchronous RwLock of platform/lock/rwlock.rs over the starvation-aware Mutex
    of platform/lock/mutex.rs. A thread stands for one guard or one future that
    acquires, converts or releases it; futures may be dropped at every await. */
module RwLock {
  import opened Tally

  const WRITER_BIT: int := 1
  const ONE_READER: int := 2

  /** The listener on `no_readers`; only a pending writer listens, so there is one at most. */
  datatype Ear = NoEar | Listening | Told

  /** The two atomic words, and the event that wakes a pending writer. */
  datatype Shared = Shared(state: int, mutex: int, ear: Ear)

  /** What the inner mutex is taken for. */
  datatype Want = TryUpgradable | Upgradable | TryWrite | Write

  datatype ReadPc =
    | ReadLoad(once: Flag)
    | ReadTry(s: int, once: Flag)
    | ReadListen
    | ReadAwait
    | ReadGuard
    | ReadNotify

  datatype MutexPc =
    | TryLock(want: Want)
    | SlowTry(want: Want)
    | SlowAwait(want: Want)
    | SlowRetry(want: Want)
    | Starve(want: Want)
    | StarvedTry(want: Want)
    | StarvedAwait(want: Want)
    | StarvedTake(want: Want)
    | StarvedCancel
    | StarvedLeave(want: Want)
    | Locked(want: Want)

  datatype UpgradePc =
    | UpCas(s: int)
    | UpGuard
    | UpRefused
    | UpDrop
    | UpNotify
    | UpDropLock
    | UpDowngrade

  datatype WritePc =
    | PendLoad
    | PendListen
    | PendCheck
    | PendAwait
    | WriteGuard
    | WriteDrop
    | WriteDropLock(refused: Flag)
    | WriteDowngrade

  /** `Refused` is a `try_` call that has answered None, `UpRefused` a `try_upgrade` that
      gives its guard back. */
  datatype Pc =
    | Idle
    | Refused
    | OnRead(read: ReadPc)
    | OnMutex(lock: MutexPc)
    | OnUpgrade(up: UpgradePc)
    | OnWrite(write: WritePc)

  datatype State = State(sh: Shared, pcs: seq<Pc>)

  datatype Out = Out(sh: Shared, pc: Pc)

  /** `no_readers.notify(1)`. */
  function Notified(a: Shared): Shared { if a.ear.Listening? then a.(ear := Told) else a }

  /** Whether a reader that takes its share out of `state` is the last one. */
  predicate Last(state: int) { state == ONE_READER || state == ONE_READER + WRITER_BIT }

  /** How a reader goes on from a loaded word. */
  function Loaded(state: int, once: Flag): Pc {
    if state % 2 == 0 then OnRead(ReadTry(state, once)) else if once.On? then Refused else OnRead(ReadListen)
  }

  function DoRead(a: Shared, p: ReadPc, c: nat): Out {
    match p
    case ReadLoad(once) => Out(a, Loaded(a.state, once))
    case ReadTry(s, once) =>
      if a.state == s then Out(a.(state := s + ONE_READER), OnRead(ReadGuard)) else Out(a, Loaded(a.state, once))
    case ReadListen => Out(a, OnRead(if a.state % 2 != 0 then ReadAwait else ReadLoad(Off)))
    case ReadAwait => Out(a, if c == 0 then Idle else OnRead(ReadLoad(Off)))
    case ReadGuard => Out(a.(state := a.state - ONE_READER), if Last(a.state) then OnRead(ReadNotify) else Idle)
    case ReadNotify => Out(Notified(a), Idle)
  }

  predicate Once(w: Want) { w.TryUpgradable? || w.TryWrite? }

  /** Acquiring the inner mutex; `Locked` is the point where its guard exists. */
  function DoMutex(a: Shared, p: MutexPc, c: nat): Out {
    match p
    case TryLock(w) =>
      if a.mutex == 0 then Out(a.(mutex := 1), OnMutex(Locked(w)))
      else Out(a, if Once(w) then Refused else OnMutex(SlowTry(w)))
    case SlowTry(w) =>
      if a.mutex == 0 then Out(a.(mutex := 1), OnMutex(Locked(w)))
      else Out(a, OnMutex(if a.mutex == 1 then SlowAwait(w) else Starve(w)))
    case SlowAwait(w) => Out(a, if c == 0 then Idle else OnMutex(SlowRetry(w)))
    case SlowRetry(w) =>
      if a.mutex == 0 then Out(a.(mutex := 1), OnMutex(Locked(w)))
      else Out(a, OnMutex(if a.mutex == 1 && c != 0 then SlowTry(w) else Starve(w)))
    case Starve(w) => Out(a.(mutex := a.mutex + 2), OnMutex(StarvedTry(w)))
    case StarvedTry(w) =>
      if a.mutex == 2 then Out(a.(mutex := 3), OnMutex(StarvedLeave(w)))
      else Out(a, OnMutex(StarvedAwait(w)))
    case StarvedAwait(w) => Out(a, OnMutex(if c == 0 then StarvedCancel else StarvedTake(w)))
    case StarvedTake(w) =>
      if a.mutex % 2 == 0 then Out(a.(mutex := a.mutex + 1), OnMutex(StarvedLeave(w)))
      else Out(a, OnMutex(StarvedTry(w)))
    case StarvedCancel => Out(a.(mutex := a.mutex - 2), Idle)
    case StarvedLeave(w) => Out(a.(mutex := a.mutex - 2), OnMutex(Locked(w)))
    case Locked(w) =>
      match w {
        case Write =>
          Out(a.(state := if a.state % 2 == 0 then a.state + WRITER_BIT else a.state), OnWrite(PendLoad))
        case TryWrite =>
          if a.state == 0 then Out(a.(state := WRITER_BIT), OnWrite(WriteGuard))
          else Out(a, OnWrite(WriteDropLock(On)))
        case _ => Out(a, OnUpgrade(UpCas(a.state)))
      }
  }

  /** Upgradable guards: an upgrade keeps the mutex and turns one reader into the writer bit. */
  function DoUpgrade(a: Shared, p: UpgradePc, c: nat): Out {
    match p
    case UpCas(s) =>
      if a.state == s then Out(a.(state := s + ONE_READER), OnUpgrade(UpGuard))
      else Out(a, OnUpgrade(UpCas(a.state)))
    case UpGuard =>
      if c == 0 then Out(a, OnUpgrade(UpDrop))
      else if c == 1 then Out(a, OnUpgrade(UpDowngrade))
      else if c == 2 then
        if a.state == ONE_READER then Out(a.(state := WRITER_BIT), OnWrite(WriteGuard))
        else Out(a, OnUpgrade(UpRefused))
      else Out(a.(state := a.state - (ONE_READER - WRITER_BIT)), OnWrite(PendLoad))
    case UpRefused => Out(a, OnUpgrade(UpGuard))
    case UpDrop =>
      Out(a.(state := a.state - ONE_READER), OnUpgrade(if Last(a.state) then UpNotify else UpDropLock))
    case UpNotify => Out(Notified(a), OnUpgrade(UpDropLock))
    case UpDropLock => Out(a.(mutex := a.mutex - 1), Idle)
    case UpDowngrade => Out(a.(mutex := a.mutex - 1), OnRead(ReadGuard))
  }

  /** Write guards, pending (the writer bit is set, readers may remain) or acquired. */
  function DoWrite(a: Shared, p: WritePc, c: nat): Out {
    match p
    case PendLoad => Out(a, OnWrite(if a.state == WRITER_BIT then WriteGuard else PendListen))
    case PendListen => Out(a.(ear := Listening), OnWrite(PendCheck))
    case PendCheck =>
      if a.state != WRITER_BIT then Out(a, OnWrite(PendAwait)) else Out(a.(ear := NoEar), OnWrite(PendLoad))
    case PendAwait =>
      if c == 0 then Out(a.(ear := NoEar), OnWrite(WriteDrop))
      else if a.ear.Told? then Out(a.(ear := NoEar), OnWrite(PendLoad))
      else Out(a, OnWrite(PendAwait))
    case WriteGuard =>
      if c == 0 then Out(a, OnWrite(WriteDrop))
      else if c == 1 then Out(a.(state := a.state + (ONE_READER - WRITER_BIT)), OnWrite(WriteDowngrade))
      else Out(a.(state := a.state + (ONE_READER - WRITER_BIT)), OnUpgrade(UpGuard))
    case WriteDrop =>
      Out(a.(state := if a.state % 2 != 0 then a.state - WRITER_BIT else a.state), OnWrite(WriteDropLock(Off)))
    case WriteDropLock(refused) => Out(a.(mutex := a.mutex - 1), if refused.On? then Refused else Idle)
    case WriteDowngrade => Out(a.(mutex := a.mutex - 1), OnRead(ReadGuard))
  }

  function DoIdle(a: Shared, c: nat): Out {
    if c == 0 then Out(a, OnRead(ReadLoad(On)))
    else if c == 1 then Out(a, OnRead(ReadLoad(Off)))
    else Out(a, OnMutex(TryLock(Wanted(c))))
  }

  function Wanted(c: nat): Want {
    if c == 2 then TryUpgradable else if c == 3 then Upgradable else if c == 4 then TryWrite else Write
  }

  function Do(a: Shared, p: Pc, c: nat): Out {
    match p
    case Idle => DoIdle(a, c)
    case Refused => Out(a, Idle)
    case OnRead(x) => DoRead(a, x, c)
    case OnMutex(x) => DoMutex(a, x, c)
    case OnUpgrade(x) => DoUpgrade(a, x, c)
    case OnWrite(x) => DoWrite(a, x, c)
  }

  function Move(s: State, move: (nat, nat)): (t: State)
    ensures |t.pcs| == |s.pcs|
  {
    if move.0 < |s.pcs| then
      var o := Do(s.sh, s.pcs[move.0], move.1);
      State(o.sh, s.pcs[move.0 := o.pc])
    else s
  }

  function Execute(s: State, moves: seq<(nat, nat)>): (t: State)
    ensures |t.pcs| == |s.pcs|
    decreases |moves|
  {
    if moves == [] then s else Execute(Move(s, moves[0]), moves[1..])
  }

  predicate Init(s: State) {
    s.sh == Shared(0, 0, NoEar) && forall i :: 0 <= i < |s.pcs| ==> s.pcs[i] == Idle
  }

  // ---------------------------------------------------------------- who holds what

  /** Read guards (plain or upgradable), writer bit, inner mutex, starvation marks, a pending
      writer's listener, its await, and a last reader's duty to notify. */
  datatype Share = Share(reader: nat, writer: nat, locked: nat, starved: nat, listen: nat, await: nat, duty: nat)

  function OfMutex(p: MutexPc): Share {
    match p
    case StarvedTry(_) => Share(0, 0, 0, 1, 0, 0, 0)
    case StarvedAwait(_) => Share(0, 0, 0, 1, 0, 0, 0)
    case StarvedTake(_) => Share(0, 0, 0, 1, 0, 0, 0)
    case StarvedCancel => Share(0, 0, 0, 1, 0, 0, 0)
    case StarvedLeave(_) => Share(0, 0, 1, 1, 0, 0, 0)
    case Locked(_) => Share(0, 0, 1, 0, 0, 0, 0)
    case _ => Share(0, 0, 0, 0, 0, 0, 0)
  }

  function Of(p: Pc): Share {
    match p
    case OnRead(x) => Share(Bit(x.ReadGuard?), 0, 0, 0, 0, 0, Bit(x.ReadNotify?))
    case OnMutex(x) => OfMutex(x)
    case OnUpgrade(x) =>
      Share(Bit(x.UpGuard? || x.UpRefused? || x.UpDrop? || x.UpDowngrade?), 0, 1, 0, 0, 0, Bit(x.UpNotify?))
    case OnWrite(x) =>
      Share(Bit(x.WriteDowngrade?), Bit(!x.WriteDropLock? && !x.WriteDowngrade?), 1, 0,
            Bit(x.PendCheck? || x.PendAwait?), Bit(x.PendAwait?), 0)
    case _ => Share(0, 0, 0, 0, 0, 0, 0)
  }

  function Reader(p: Pc): nat { Of(p).reader }
  function Writer(p: Pc): nat { Of(p).writer }
  function Lock(p: Pc): nat { Of(p).locked }
  function Starved(p: Pc): nat { Of(p).starved }
  function Listen(p: Pc): nat { Of(p).listen }
  function Await(p: Pc): nat { Of(p).await }
  function Duty(p: Pc): nat { Of(p).duty }

  ghost function Totals(pcs: seq<Pc>): Share {
    Share(Sum(pcs, Reader), Sum(pcs, Writer), Sum(pcs, Lock), Sum(pcs, Starved),
          Sum(pcs, Listen), Sum(pcs, Await), Sum(pcs, Duty))
  }

  /** The encoding of both words, one mutex holder, and no writer without the mutex; a
      pending writer that waits untold after the last reader left has a notify coming. */
  predicate Encoded(a: Shared, t: Share) {
    && a.state == 2 * t.reader + t.writer
    && a.mutex == t.locked + 2 * t.starved
    && t.writer <= t.locked <= 1
    && (a.ear.NoEar? <==> t.listen == 0) && t.await <= t.listen
    && (t.await > 0 && !a.ear.Told? && a.state == WRITER_BIT ==> t.duty > 0)
  }

  /** An acquired write guard: its holder may touch the value exclusively. */
  predicate Acquired(p: Pc) { p == OnWrite(WriteGuard) }

  predicate ThreadInv(a: Shared, p: Pc) {
    && (Acquired(p) ==> a.state == WRITER_BIT)
    && (p.OnRead? && p.read.ReadTry? ==> p.read.s >= 0 && p.read.s % 2 == 0)
  }

  ghost predicate Inv(s: State) {
    Encoded(s.sh, Totals(s.pcs)) && forall i :: 0 <= i < |s.pcs| ==> ThreadInv(s.sh, s.pcs[i])
  }

  // ---------------------------------------------------------------- one step

  predicate Within(h: Share, t: Share) {
    && h.reader <= t.reader && h.writer <= t.writer && h.locked <= t.locked
    && h.starved <= t.starved && h.listen <= t.listen && h.await <= t.await && h.duty <= t.duty
  }

  /** The mover's share is within the totals; if it holds the mutex, nobody else does. */
  predicate Local(a: Shared, t: Share, p: Pc) {
    && Encoded(a, t) && ThreadInv(a, p)
    && Within(Of(p), t)
    && (Of(p).locked == 1 ==> t.writer == Of(p).writer && t.listen == Of(p).listen && t.await == Of(p).await)
  }

  function Moved(t: Share, p: Pc, q: Pc): Share
    requires Within(Of(p), t)
  {
    Share(t.reader - Of(p).reader + Of(q).reader, t.writer - Of(p).writer + Of(q).writer,
          t.locked - Of(p).locked + Of(q).locked, t.starved - Of(p).starved + Of(q).starved,
          t.listen - Of(p).listen + Of(q).listen, t.await - Of(p).await + Of(q).await, t.duty - Of(p).duty + Of(q).duty)
  }

  /** The encoding holds after the step, and another thread's acquired guard is not disturbed. */
  predicate Good(a: Shared, t: Share, p: Pc, o: Out)
    requires Within(Of(p), t)
  {
    && Encoded(o.sh, Moved(t, p, o.pc)) && ThreadInv(o.sh, o.pc)
    && (a.state == WRITER_BIT && t.writer == 1 && Of(p).locked == 0 ==> o.sh.state == WRITER_BIT)
  }

  lemma ReadStep(a: Shared, t: Share, p: ReadPc, c: nat)
    requires Local(a, t, OnRead(p))
    ensures Good(a, t, OnRead(p), DoRead(a, p, c))
  {
  }

  lemma MutexStep(a: Shared, t: Share, p: MutexPc, c: nat)
    requires Local(a, t, OnMutex(p)) && !p.Locked?
    ensures Good(a, t, OnMutex(p), DoMutex(a, p, c))
  {
  }

  lemma LockedStep(a: Shared, t: Share, p: MutexPc, c: nat)
    requires Local(a, t, OnMutex(p)) && p.Locked?
    ensures Good(a, t, OnMutex(p), DoMutex(a, p, c))
  {
  }

  lemma UpgradeStep(a: Shared, t: Share, p: UpgradePc, c: nat)
    requires Local(a, t, OnUpgrade(p))
    ensures Good(a, t, OnUpgrade(p), DoUpgrade(a, p, c))
  {
  }

  lemma PendingStep(a: Shared, t: Share, p: WritePc, c: nat)
    requires Local(a, t, OnWrite(p)) && (p.PendLoad? || p.PendListen? || p.PendCheck? || p.PendAwait?)
    ensures Good(a, t, OnWrite(p), DoWrite(a, p, c))
  {
  }

  lemma GuardStep(a: Shared, t: Share, p: WritePc, c: nat)
    requires Local(a, t, OnWrite(p)) && (p.WriteGuard? || p.WriteDrop? || p.WriteDropLock? || p.WriteDowngrade?)
    ensures Good(a, t, OnWrite(p), DoWrite(a, p, c))
  {
  }

  lemma WriteStep(a: Shared, t: Share, p: WritePc, c: nat)
    requires Local(a, t, OnWrite(p))
    ensures Good(a, t, OnWrite(p), DoWrite(a, p, c))
  {
    if p.PendLoad? || p.PendListen? || p.PendCheck? || p.PendAwait? {
      PendingStep(a, t, p, c);
    } else {
      GuardStep(a, t, p, c);
    }
  }

  lemma Step(a: Shared, t: Share, p: Pc, c: nat)
    requires Local(a, t, p)
    ensures Good(a, t, p, Do(a, p, c))
  {
    match p
    case Idle =>
    case Refused =>
    case OnRead(x) => ReadStep(a, t, x, c);
    case OnMutex(x) =>
      if x.Locked? {
        LockedStep(a, t, x, c);
      } else {
        MutexStep(a, t, x, c);
      }
    case OnUpgrade(x) => UpgradeStep(a, t, x, c);
    case OnWrite(x) => WriteStep(a, t, x, c);
  }

  // ---------------------------------------------------------------- whole runs

  /** If one thread holds the mutex, all the writer bit and all the waiting there is belong
      to it. */
  lemma HolderHasAll(pcs: seq<Pc>, i: nat, w: Pc -> nat)
    requires i < |pcs| && Sum(pcs, Lock) <= 1 && Lock(pcs[i]) == 1
    requires forall p :: Lock(p) == 0 ==> w(p) == 0
    ensures Sum(pcs, w) == w(pcs[i])
  {
    var rest := pcs[i := Idle];
    SumUpdate(pcs, i, Idle, Lock);
    SumUpdate(pcs, i, Idle, w);
    forall j | 0 <= j < |rest| ensures w(rest[j]) == 0 {
      SumAt(rest, j, Lock);
    }
    SumZero(rest, w);
  }

  lemma ShareWithin(pcs: seq<Pc>, i: nat)
    requires i < |pcs|
    ensures Within(Of(pcs[i]), Totals(pcs))
  {
    SumAt(pcs, i, Reader);
    SumAt(pcs, i, Writer);
    SumAt(pcs, i, Lock);
    SumAt(pcs, i, Starved);
    SumAt(pcs, i, Listen);
    SumAt(pcs, i, Await);
    SumAt(pcs, i, Duty);
  }

  lemma LocalView(s: State, i: nat)
    requires Inv(s) && i < |s.pcs|
    ensures Local(s.sh, Totals(s.pcs), s.pcs[i])
  {
    ShareWithin(s.pcs, i);
    if Lock(s.pcs[i]) == 1 {
      HolderHasWriter(s.pcs, i);
      HolderListens(s.pcs, i);
      HolderAwaits(s.pcs, i);
    }
  }

  lemma HolderHasWriter(pcs: seq<Pc>, i: nat)
    requires i < |pcs| && Sum(pcs, Lock) <= 1 && Lock(pcs[i]) == 1
    ensures Sum(pcs, Writer) == Writer(pcs[i])
  {
    HolderHasAll(pcs, i, Writer);
  }

  lemma HolderListens(pcs: seq<Pc>, i: nat)
    requires i < |pcs| && Sum(pcs, Lock) <= 1 && Lock(pcs[i]) == 1
    ensures Sum(pcs, Listen) == Listen(pcs[i])
  {
    HolderHasAll(pcs, i, Listen);
  }

  lemma HolderAwaits(pcs: seq<Pc>, i: nat)
    requires i < |pcs| && Sum(pcs, Lock) <= 1 && Lock(pcs[i]) == 1
    ensures Sum(pcs, Await) == Await(pcs[i])
  {
    HolderHasAll(pcs, i, Await);
  }

  lemma TotalMoves(pcs: seq<Pc>, i: nat, q: Pc, w: Pc -> nat)
    requires i < |pcs|
    ensures w(pcs[i]) <= Sum(pcs, w) && Sum(pcs[i := q], w) == Sum(pcs, w) - w(pcs[i]) + w(q)
  {
    SumAt(pcs, i, w);
    SumUpdate(pcs, i, q, w);
  }

  lemma TotalsMove(pcs: seq<Pc>, i: nat, q: Pc)
    requires i < |pcs|
    ensures Within(Of(pcs[i]), Totals(pcs))
    ensures Totals(pcs[i := q]) == Moved(Totals(pcs), pcs[i], q)
  {
    ShareWithin(pcs, i);
    var p := pcs[i];
    var t, u := Moved(Totals(pcs), p, q), Totals(pcs[i := q]);
    TotalMoves(pcs, i, q, Reader);
    assert u.reader == t.reader;
    TotalMoves(pcs, i, q, Writer);
    assert u.writer == t.writer;
    TotalMoves(pcs, i, q, Lock);
    assert u.locked == t.locked;
    TotalMoves(pcs, i, q, Starved);
    assert u.starved == t.starved;
    TotalMoves(pcs, i, q, Listen);
    assert u.listen == t.listen;
    TotalMoves(pcs, i, q, Await);
    assert u.await == t.await;
    TotalMoves(pcs, i, q, Duty);
  }

  /** Another thread's acquired guard: it has the writer bit and the mutex. */
  lemma OthersKeep(s: State, i: nat, j: nat, o: Out)
    requires Inv(s) && i < |s.pcs| && j < |s.pcs| && i != j
    requires Local(s.sh, Totals(s.pcs), s.pcs[i]) && Good(s.sh, Totals(s.pcs), s.pcs[i], o)
    ensures ThreadInv(o.sh, s.pcs[j])
  {
    assert ThreadInv(s.sh, s.pcs[j]);
    if Acquired(s.pcs[j]) {
      SumTwo(s.pcs, i, j, Lock);
      SumAt(s.pcs, j, Writer);
    }
  }

  lemma MoveKeeps(s: State, move: (nat, nat))
    requires Inv(s)
    ensures Inv(Move(s, move))
  {
    var (i, c) := move;
    if i < |s.pcs| {
      var o := Do(s.sh, s.pcs[i], c);
      var t := Move(s, move);
      LocalView(s, i);
      Step(s.sh, Totals(s.pcs), s.pcs[i], c);
      TotalsMove(s.pcs, i, o.pc);
      forall j | 0 <= j < |t.pcs| ensures ThreadInv(t.sh, t.pcs[j]) {
        if j != i {
          OthersKeep(s, i, j, o);
        }
      }
    }
  }

  lemma {:induction false} RunKeeps(s: State, moves: seq<(nat, nat)>)
    requires Inv(s)
    ensures Inv(Execute(s, moves))
    decreases |moves|
  {
    if moves != [] {
      MoveKeeps(s, moves[0]);
      RunKeeps(Move(s, moves[0]), moves[1..]);
    }
  }

  lemma InitInv(s: State)
    requires Init(s)
    ensures Inv(s)
  {
    InitEncoded(s);
  }

  lemma InitEncoded(s: State)
    requires Init(s)
    ensures Encoded(s.sh, Totals(s.pcs))
  {
    NothingHeld(s.pcs);
  }

  lemma NothingHeld(pcs: seq<Pc>)
    requires forall i :: 0 <= i < |pcs| ==> pcs[i] == Idle
    ensures Totals(pcs) == Share(0, 0, 0, 0, 0, 0, 0)
  {
    assert forall i :: 0 <= i < |pcs| ==> Of(pcs[i]) == Share(0, 0, 0, 0, 0, 0, 0);
    SumZero(pcs, Reader);
    SumZero(pcs, Writer);
    SumZero(pcs, Lock);
    SumZero(pcs, Starved);
    SumZero(pcs, Listen);
    SumZero(pcs, Await);
    SumZero(pcs, Duty);
  }

  lemma Reachable(s: State, moves: seq<(nat, nat)>)
    requires Init(s)
    ensures Inv(Execute(s, moves))
  {
    InitInv(s);
    RunKeeps(s, moves);
  }

  // ---------------------------------------------------------------- theorems

  /** `state` is twice the read guards plus the writer bit; the mutex word is its
      locked bit plus twice its starved waiters; one thread at most holds the mutex. */
  lemma WordsAreExact(s: State, moves: seq<(nat, nat)>)
    requires Init(s)
    ensures var t := Execute(s, moves);
            && t.sh.state == 2 * Sum(t.pcs, Reader) + Sum(t.pcs, Writer)
            && t.sh.mutex == Sum(t.pcs, Lock) + 2 * Sum(t.pcs, Starved)
            && Sum(t.pcs, Writer) <= Sum(t.pcs, Lock) <= 1
  {
    Reachable(s, moves);
  }

  /** While one thread has an acquired write guard, no other has a guard of any kind. */
  lemma WriterExcludesAll(s: State, moves: seq<(nat, nat)>, i: nat, j: nat)
    requires Init(s) && i < |s.pcs| && j < |s.pcs| && i != j
    ensures var t := Execute(s, moves);
            Acquired(t.pcs[i]) ==> Reader(t.pcs[j]) == 0 && Writer(t.pcs[j]) == 0 && Lock(t.pcs[j]) == 0
  {
    Reachable(s, moves);
    var t := Execute(s, moves);
    if Acquired(t.pcs[i]) {
      assert ThreadInv(t.sh, t.pcs[i]);
      SumAt(t.pcs, i, Writer);
      SumAt(t.pcs, j, Reader);
      SumTwo(t.pcs, i, j, Writer);
      SumTwo(t.pcs, i, j, Lock);
    }
  }

  /** No release ever takes a word below zero or clears a bit that is not its own. */
  lemma ReleasesAreCovered(s: State, moves: seq<(nat, nat)>, i: nat)
    requires Init(s) && i < |s.pcs|
    ensures var t := Execute(s, moves); Covers(t.sh, Of(t.pcs[i]))
  {
    Reachable(s, moves);
    var t := Execute(s, moves);
    LocalView(t, i);
    HeldIsCovered(t.sh, Totals(t.pcs), t.pcs[i]);
  }

  /** The words hold at least what one thread will give back. */
  predicate Covers(a: Shared, h: Share) {
    && (h.reader == 1 ==> a.state >= ONE_READER)
    && (h.writer == 1 ==> a.state % 2 == 1)
    && (h.locked == 1 ==> a.mutex % 2 == 1)
    && (h.starved == 1 ==> a.mutex >= 2)
  }

  lemma HeldIsCovered(a: Shared, t: Share, p: Pc)
    requires Local(a, t, p)
    ensures Covers(a, Of(p))
  {
  }

  /** A pending writer is not forgotten: if it waits untold although no reader is left, the
      last reader is on its way to notify it. */
  lemma WriterIsTold(s: State, moves: seq<(nat, nat)>, i: nat)
    requires Init(s) && i < |s.pcs| && Execute(s, moves).pcs[i] == OnWrite(PendAwait)
    ensures var t := Execute(s, moves);
            || t.sh.ear == Told
            || (exists j :: 0 <= j < |t.pcs| && Reader(t.pcs[j]) > 0)
            || (exists j :: 0 <= j < |t.pcs| && Duty(t.pcs[j]) > 0)
  {
    Reachable(s, moves);
    var t := Execute(s, moves);
    SumAt(t.pcs, i, Await);
    SumAt(t.pcs, i, Writer);
    if Sum(t.pcs, Reader) > 0 {
      var j := SumWitness(t.pcs, Reader);
    } else if !t.sh.ear.Told? {
      var j := SumWitness(t.pcs, Duty);
    }
  }

  /** Nothing leaks, whatever was cancelled: with every guard and future gone both
      words are back at zero. */
  lemma QuietIsFree(s: State, moves: seq<(nat, nat)>)
    requires Init(s)
    ensures var t := Execute(s, moves);
            (forall i :: 0 <= i < |t.pcs| ==> t.pcs[i] == Idle) ==> t.sh == Shared(0, 0, NoEar)
  {
    Reachable(s, moves);
    var t := Execute(s, moves);
    if forall i :: 0 <= i < |t.pcs| ==> t.pcs[i] == Idle {
      NothingHeld(t.pcs);
    }
  }

  // ---------------------------------------------------------------- answers

  /** `try_read`: the step that loads the word, or fails to change it, answers None exactly
      if there is a writer, pending or acquired, at that instant; otherwise the call goes on
      or has its guard. */
  lemma TryReadAnswers(s: State, moves: seq<(nat, nat)>, i: nat, c: nat)
    requires Init(s) && i < |s.pcs| && Execute(s, moves).pcs[i].OnRead?
    requires var p := Execute(s, moves).pcs[i].read; (p.ReadLoad? || p.ReadTry?) && p.once.On?
    ensures var t := Execute(s, moves);
            var u := Move(t, (i, c));
            && (u.pcs[i] == Refused <==> Sum(t.pcs, Writer) > 0)
            && (u.pcs[i] != Refused ==> u.pcs[i].OnRead? && (u.pcs[i].read.ReadTry? || u.pcs[i].read.ReadGuard?))
  {
    Reachable(s, moves);
    assert ThreadInv(Execute(s, moves).sh, Execute(s, moves).pcs[i]);
  }

  /** The mutex of `try_write` and `try_upgradable_read`: None exactly if somebody holds it
      or is starved for it. */
  lemma TryLockAnswers(s: State, moves: seq<(nat, nat)>, i: nat, c: nat, w: Want)
    requires Init(s) && i < |s.pcs| && Execute(s, moves).pcs[i] == OnMutex(TryLock(w)) && Once(w)
    ensures var t := Execute(s, moves);
            var q := Move(t, (i, c)).pcs[i];
            && (q == Refused <==> Sum(t.pcs, Lock) + Sum(t.pcs, Starved) > 0)
            && (q != Refused ==> q == OnMutex(Locked(w)))
  {
    Reachable(s, moves);
  }

  /** `try_write` with the mutex: it gives the mutex back and answers None exactly if a
      reader is left, and otherwise has acquired the lock. */
  lemma TryWriteAnswers(s: State, moves: seq<(nat, nat)>, i: nat, c: nat)
    requires Init(s) && i < |s.pcs| && Execute(s, moves).pcs[i] == OnMutex(Locked(TryWrite))
    ensures var t := Execute(s, moves);
            var u := Move(t, (i, c));
            && (u.pcs[i] == OnWrite(WriteDropLock(On)) <==> Sum(t.pcs, Reader) > 0)
            && (Sum(t.pcs, Reader) == 0 ==> Acquired(u.pcs[i]))
            && (u.pcs[i] == OnWrite(WriteDropLock(On)) ==> Move(u, (i, c)).pcs[i] == Refused)
  {
    Reachable(s, moves);
    var t := Execute(s, moves);
    LocalView(t, i);
  }

  /** `try_upgrade` gives the guard back exactly if there is another reader. */
  lemma TryUpgradeAnswers(s: State, moves: seq<(nat, nat)>, i: nat)
    requires Init(s) && i < |s.pcs| && Execute(s, moves).pcs[i] == OnUpgrade(UpGuard)
    ensures var t := Execute(s, moves);
            var q := Move(t, (i, 2)).pcs[i];
            && (q == OnUpgrade(UpRefused) <==> Sum(t.pcs, Reader) > 1)
            && (q != OnUpgrade(UpRefused) ==> Acquired(q))
  {
    Reachable(s, moves);
    LocalView(Execute(s, moves), i);
  }

  /** Only a `try_` call is refused, and only at these steps. */
  lemma OnlyTriesAreRefused(s: State, i: nat, c: nat)
    requires i < |s.pcs|
    ensures var p := s.pcs[i];
            && (Move(s, (i, c)).pcs[i] == Refused ==>
                  || (p.OnRead? && (p.read.ReadLoad? || p.read.ReadTry?) && p.read.once.On?)
                  || (p.OnMutex? && p.lock.TryLock? && Once(p.lock.want))
                  || p == OnWrite(WriteDropLock(On)))
            && (Move(s, (i, c)).pcs[i] == OnWrite(WriteDropLock(On)) ==> p == OnMutex(Locked(TryWrite)))
  {
  }
}
