/** FIFO order, reclamation and memory safety of the unbounded queue, over every
    interleaving of any number of pushers, poppers and closers. */
module UnboundedProof {
  import opened Tally
  import opened UnboundedQueue

  // ---------------------------------------------------------------- the invariant

  /** The slots below `j` of a block have been read. */
  predicate AllRead(a: Shared, blk: nat, j: nat) {
    forall o :: 0 <= o < j ==> At(blk, o) in a.read
  }

  /** A position whose popper has finished with its slot. */
  predicate Finished(a: Shared, n: nat) {
    && n in a.popped
    && (if Offset(n) == 30 then TokenOf(a, Lap(n)) != NotYet else n in a.read)
  }

  ghost predicate TailInv(a: Shared) {
    && (a.tailBlock.None? ==> a.tail == 0)
    && (IsSlot(a.tail) && a.tailBlock.Some? ==> a.tailBlock.value == Lap(a.tail))
    && (forall k :: k in a.linked ==> At(k, 32) <= a.tail)
    && (forall n: nat :: n in a.claimed <==> n < a.tail && IsSlot(n))
    && (forall n :: n in a.pushers ==> n in a.claimed && n !in a.written)
    && (forall n :: n in a.claimed && n !in a.pushers ==> n in a.written)
    && (forall n :: n in a.written ==> n in a.claimed && n in a.vals && a.vals[n] == a.claimed[n])
  }

  ghost predicate HeadInv(a: Shared) {
    && a.head <= a.tail
    && (a.mark.On? ==> Lap(a.head) < Lap(a.tail))
    && (a.headBlock.None? ==> a.head == 0)
    && (IsSlot(a.head) && a.headBlock.Some? ==> a.headBlock.value == Lap(a.head))
    && (a.tailBlock.None? ==> a.headBlock.None?)
    && (a.installer.Some? ==> a.headBlock.None? && a.tailBlock.Some?)
    && (a.installer.None? && a.tailBlock.Some? ==> a.headBlock.Some?)
  }

  ghost predicate PopInv(a: Shared) {
    && (forall n :: n in a.poppers ==> n < a.head && IsSlot(n))
    && (forall n: nat :: n < a.head && IsSlot(n) && n !in a.poppers ==> Finished(a, n))
    && (forall n :: n in a.popped ==> n < a.head && n in a.written && n in a.claimed && a.popped[n] == a.claimed[n])
    && (forall n :: n in a.read ==> Offset(n) < 30 && n in a.popped)
  }

  /** What the holder of the duty to free `blk` may rely on. */
  predicate TokenInv(a: Shared, blk: nat) {
    match TokenOf(a, blk)
    case NotYet => At(blk, 30) !in a.popped
    case AtSlot(k) =>
      && k < 30 && At(blk, k) in a.doomed && At(blk, k) !in a.read
      && AllRead(a, blk, k) && At(blk, 30) in a.popped
    case With(n) =>
      && Lap(n) == blk && n in a.poppers && (Offset(n) < 30 ==> n in a.read)
      && At(blk, 30) in a.popped
    case Freed => AllRead(a, blk, 30) && At(blk, 30) in a.popped
  }

  ghost predicate TokensInv(a: Shared) {
    && (forall blk :: TokenInv(a, blk))
    && (forall x :: x in a.doomed && x !in a.read ==> TokenOf(a, Lap(x)) == AtSlot(Offset(x)))
    && (forall blk: nat :: a.frees[blk] == (if TokenOf(a, blk) == Freed then 1 else 0))
  }

  ghost predicate SharedInv(a: Shared) {
    TailInv(a) && HeadInv(a) && PopInv(a) && TokensInv(a)
  }

  // ---------------------------------------------------------------- program points

  predicate PushClaim(a: Shared, i: nat, v: int, n: nat, blk: nat) {
    && n in a.pushers && a.pushers[n] == i && n in a.claimed && a.claimed[n] == v
    && IsSlot(n) && n < a.tail && blk == Lap(n)
  }

  predicate PopClaim(a: Shared, i: nat, n: nat, blk: nat) {
    && n in a.poppers && a.poppers[n] == i && IsSlot(n) && n < a.head && blk == Lap(n)
  }

  /** A block pointer loaded after the index `t` belongs to it, if the index is still current. */
  predicate Paired(t: nat, b: Option<nat>, index: nat, block: Option<nat>) {
    t <= index && (t == index && IsSlot(t) ==> b == block || (b.None? && t == 0))
  }

  predicate PushInv(a: Shared, i: nat, p: PushPc) {
    match p
    case PushLoad(_) => true
    case PushBlock(_, t, cl) => t <= a.tail && (cl.On? ==> a.closed.On?)
    case PushLoop(_, t, cl, b) => Paired(t, b, a.tail, a.tailBlock) && (cl.On? ==> a.closed.On?)
    case PushHead(_, t, cl) => a.installer == Some(i) && t == 0 && (cl.On? ==> a.closed.On?)
    case PushNext(v, n, blk) =>
      PushClaim(a, i, v, n, blk) && Offset(n) == 30 && a.tail == n + 1 && a.tailBlock == Some(blk)
    case PushSkip(v, n, blk) =>
      PushClaim(a, i, v, n, blk) && Offset(n) == 30 && a.tail == n + 1 && a.tailBlock == Some(blk + 1)
    case PushLink(v, n, blk) => PushClaim(a, i, v, n, blk) && Offset(n) == 30 && n + 2 <= a.tail
    case PushWrite(v, n, blk) => PushClaim(a, i, v, n, blk)
    case PushMark(v, n, blk) => PushClaim(a, i, v, n, blk) && n in a.vals && a.vals[n] == v
  }

  /** The popper of the last slot, while it moves the head to the next block. */
  predicate Advancing(a: Shared, i: nat, n: nat, blk: nat, block: nat) {
    && PopClaim(a, i, n, blk) && Offset(n) == 30 && a.head == n + 1 && a.headBlock == Some(block)
    && n !in a.popped && n !in a.read
  }

  predicate PoppingInv(a: Shared, i: nat, p: PopPc) {
    match p
    case PopLoad => true
    case PopBlock(h, _) => h <= a.head
    case PopLoop(h, _, b) => Paired(h, b, a.head, a.headBlock)
    case PopCas(h, m, m', b) =>
      && Paired(h, b, a.head, a.headBlock) && IsSlot(h)
      && (m.Off? ==> h < a.tail && (m'.On? ==> Lap(h) < Lap(a.tail)))
      && (m.On? ==> m'.On?)
    case PopNext(n, blk) => Advancing(a, i, n, blk, blk)
    case PopPeek(n, blk) => Advancing(a, i, n, blk, blk) && blk in a.linked
    case PopHead(n, blk, more) =>
      Advancing(a, i, n, blk, blk) && blk in a.linked && (more.On? ==> blk + 1 in a.linked)
    case PopSkip(n, blk, more) =>
      Advancing(a, i, n, blk, blk + 1) && blk in a.linked && (more.On? ==> blk + 1 in a.linked)
    case PopWait(n, blk) => PopClaim(a, i, n, blk) && n !in a.popped && n !in a.read
    case PopRead(n, blk) =>
      PopClaim(a, i, n, blk) && n !in a.popped && n !in a.read && n in a.written
    case PopMark(n, blk) => PopClaim(a, i, n, blk) && n in a.popped && n !in a.read && Offset(n) < 30
    case FreeLoad(n, blk, j) =>
      PopClaim(a, i, n, blk) && n in a.popped && TokenOf(a, blk) == With(n) && j <= 30 && AllRead(a, blk, j)
      && (Offset(n) < 30 ==> n in a.read)
    case FreeOr(n, blk, j) =>
      PopClaim(a, i, n, blk) && n in a.popped && TokenOf(a, blk) == With(n) && j < 30 && AllRead(a, blk, j)
      && (Offset(n) < 30 ==> n in a.read)
  }

  predicate ThreadInv(a: Shared, i: nat, p: Pc) {
    match p
    case Idle => true
    case OnPush(x) => PushInv(a, i, x)
    case OnPop(x) => PoppingInv(a, i, x)
    case OnLen(x) => LenInv(a, x)
    case Said(r) => AnswerInv(a, r)
  }

  predicate LenInv(a: Shared, p: LenPc) {
    match p
    case LenTail => true
    case LenHead(t, _) => t <= a.tail
    case LenCheck(t, _, h, seen) => t <= a.tail && (t == a.tail ==> h <= t && seen == |Slots(h, t)|)
  }

  predicate AnswerInv(a: Shared, r: Answer) {
    match r
    case Pushed(n) => n in a.claimed
    case Popped(n, x) => n in a.claimed && a.claimed[n] == x
    case _ => true
  }

  // ---------------------------------------------------------------- what a step leaves to others

  ghost predicate TailRely(a: Shared, b: Shared, i: nat) {
    && a.tail <= b.tail && (a.closed.On? ==> b.closed.On?)
    && (b.tail == a.tail && IsSlot(a.tail) ==> b.tailBlock == a.tailBlock || (a.tailBlock.None? && a.tail == 0))
    && (a.installer.Some? && a.installer.value != i ==> b.installer == a.installer)
    && a.linked <= b.linked && a.written <= b.written
    && (forall n :: n in a.claimed ==> n in b.claimed && b.claimed[n] == a.claimed[n])
    && (forall n :: n in a.pushers && a.pushers[n] != i ==>
          && n in b.pushers && b.pushers[n] == a.pushers[n]
          && (n in a.vals ==> n in b.vals && b.vals[n] == a.vals[n])
          && (n + 1 == a.tail && Offset(n) == 30 ==> b.tail == a.tail && b.tailBlock == a.tailBlock))
  }

  ghost predicate HeadRely(a: Shared, b: Shared, i: nat) {
    && a.head <= b.head && a.read <= b.read
    && (b.head == a.head && IsSlot(a.head) ==> b.headBlock == a.headBlock || (a.headBlock.None? && a.head == 0))
    && (forall n :: n in a.poppers && a.poppers[n] != i ==>
          && n in b.poppers && b.poppers[n] == a.poppers[n]
          && (n in b.popped <==> n in a.popped) && (n in b.read <==> n in a.read)
          && (TokenOf(a, Lap(n)) == With(n) ==> TokenOf(b, Lap(n)) == With(n))
          && (n + 1 == a.head && Offset(n) == 30 ==> b.head == a.head && b.headBlock == a.headBlock))
  }

  lemma OthersPush(a: Shared, b: Shared, i: nat, j: nat, p: PushPc)
    requires TailRely(a, b, i) && i != j && PushInv(a, j, p)
    ensures PushInv(b, j, p)
  {
  }

  lemma OthersPop(a: Shared, b: Shared, i: nat, j: nat, p: PopPc)
    requires a.tail <= b.tail && a.linked <= b.linked && a.written <= b.written
    requires HeadRely(a, b, i) && i != j && PoppingInv(a, j, p)
    ensures PoppingInv(b, j, p)
  {
  }

  lemma OthersKeep(a: Shared, b: Shared, i: nat, j: nat, p: Pc)
    requires TailRely(a, b, i) && HeadRely(a, b, i) && i != j && ThreadInv(a, j, p)
    ensures ThreadInv(b, j, p)
  {
    if p.OnPush? {
      OthersPush(a, b, i, j, p.push);
    } else if p.OnPop? {
      OthersPop(a, b, i, j, p.pop);
    }
  }

  // ---------------------------------------------------------------- frames

  predicate SameTail(a: Shared, b: Shared) {
    && (a.closed.On? ==> b.closed.On?)
    && b.tail == a.tail && b.tailBlock == a.tailBlock && b.installer == a.installer
    && b.linked == a.linked && b.claimed == a.claimed && b.pushers == a.pushers
    && b.written == a.written && b.vals == a.vals
  }

  predicate SameHead(a: Shared, b: Shared) {
    b.head == a.head && b.mark == a.mark && b.headBlock == a.headBlock
  }

  predicate SameSlots(a: Shared, b: Shared) {
    && b.poppers == a.poppers && b.popped == a.popped && b.read == a.read
    && b.doomed == a.doomed && b.tokens == a.tokens && b.frees == a.frees
  }

  lemma TailFrame(a: Shared, b: Shared, i: nat)
    requires TailInv(a) && SameTail(a, b)
    ensures TailInv(b) && TailRely(a, b, i)
  {
  }

  lemma TokensFrame(a: Shared, b: Shared)
    requires TokensInv(a) && SameSlots(a, b)
    ensures TokensInv(b)
  {
    assert forall blk :: TokenInv(a, blk) ==> TokenInv(b, blk);
  }

  lemma PopFrame(a: Shared, b: Shared)
    requires PopInv(a) && SameSlots(a, b) && b.head == a.head && a.written <= b.written
    requires forall n :: n in a.claimed ==> n in b.claimed && b.claimed[n] == a.claimed[n]
    ensures PopInv(b)
  {
    assert forall n :: Finished(a, n) ==> Finished(b, n);
  }

  // ---------------------------------------------------------------- push steps

  ghost predicate Good(a: Shared, i: nat, o: Out) {
    SharedInv(o.sh) && TailRely(a, o.sh, i) && HeadRely(a, o.sh, i) && ThreadInv(o.sh, i, o.pc)
  }

  /** A successful compare-exchange of the tail claims its position. */
  lemma ClaimTailInv(a: Shared, i: nat, v: int, t: nat)
    requires TailInv(a) && a.tail == t && IsSlot(t) && a.tailBlock.Some?
    ensures TailInv(TailClaimed(a, i, t, v))
  {
    assert t !in a.claimed;
  }

  lemma ClaimTailRely(a: Shared, i: nat, v: int, t: nat)
    requires a.tail == t && IsSlot(t) && t !in a.claimed && t !in a.pushers
    ensures TailRely(a, TailClaimed(a, i, t, v), i)
  {
    assert forall n: nat :: n + 1 == t ==> Offset(n) != 30;
  }

  lemma ClaimTail(a: Shared, i: nat, v: int, t: nat)
    requires TailInv(a) && HeadInv(a) && a.tail == t && IsSlot(t) && a.tailBlock.Some?
    ensures var b := TailClaimed(a, i, t, v);
            TailInv(b) && HeadInv(b) && TailRely(a, b, i) && PushClaim(b, i, v, t, Lap(t))
  {
    assert t !in a.claimed;
    ClaimTailInv(a, i, v, t);
    ClaimTailRely(a, i, v, t);
  }

  /** What a push step has to establish on the tail's side. */
  ghost predicate GoodTail(a: Shared, i: nat, o: Out) {
    TailInv(o.sh) && HeadInv(o.sh) && TailRely(a, o.sh, i) && ThreadInv(o.sh, i, o.pc)
  }

  lemma TailStutter(a: Shared, i: nat, q: Pc)
    requires TailInv(a) && HeadInv(a) && ThreadInv(a, i, q)
    ensures GoodTail(a, i, Out(a, q))
  {
  }

  lemma PushWins(a: Shared, i: nat, p: PushPc, c: nat)
    requires TailInv(a) && HeadInv(a) && PushInv(a, i, p) && Wins(a, p, c)
    ensures GoodTail(a, i, DoPush(a, i, p, c))
  {
    WinEffect(a, i, p, c);
    ClaimTail(a, i, p.v, p.t);
  }

  lemma PushInstalls(a: Shared, i: nat, p: PushPc, c: nat)
    requires TailInv(a) && HeadInv(a) && PushInv(a, i, p) && p.PushLoop?
    requires !p.cl.On? && Offset(p.t) != BLOCK_CAP && p.b.None? && a.tailBlock.None?
    ensures GoodTail(a, i, DoPush(a, i, p, c))
  {
  }

  lemma PushTry(a: Shared, i: nat, p: PushPc, c: nat)
    requires TailInv(a) && HeadInv(a) && PushInv(a, i, p) && p.PushLoop?
    ensures GoodTail(a, i, DoPush(a, i, p, c))
  {
    if Wins(a, p, c) {
      PushWins(a, i, p, c);
    } else if !p.cl.On? && Offset(p.t) != BLOCK_CAP && p.b.None? && a.tailBlock.None? {
      PushInstalls(a, i, p, c);
    } else {
      TailStutter(a, i, DoPush(a, i, p, c).pc);
    }
  }

  lemma PushInstallsNext(a: Shared, i: nat, p: PushPc, c: nat)
    requires TailInv(a) && HeadInv(a) && PushInv(a, i, p) && p.PushNext?
    ensures GoodTail(a, i, DoPush(a, i, p, c))
  {
  }

  lemma PushSkips(a: Shared, i: nat, p: PushPc, c: nat)
    requires TailInv(a) && HeadInv(a) && PushInv(a, i, p) && p.PushSkip?
    ensures GoodTail(a, i, DoPush(a, i, p, c))
  {
  }

  lemma PushLinks(a: Shared, i: nat, p: PushPc, c: nat)
    requires TailInv(a) && HeadInv(a) && PushInv(a, i, p) && p.PushLink?
    ensures GoodTail(a, i, DoPush(a, i, p, c))
  {
  }

  lemma PushWrites(a: Shared, i: nat, p: PushPc, c: nat)
    requires TailInv(a) && HeadInv(a) && PushInv(a, i, p) && p.PushWrite?
    ensures GoodTail(a, i, DoPush(a, i, p, c))
  {
    assert At(p.blk, Offset(p.n)) == p.n;
  }

  lemma PushMarks(a: Shared, i: nat, p: PushPc, c: nat)
    requires TailInv(a) && HeadInv(a) && PushInv(a, i, p) && p.PushMark?
    ensures GoodTail(a, i, DoPush(a, i, p, c))
  {
    assert At(p.blk, Offset(p.n)) == p.n;
  }

  lemma PushOther(a: Shared, i: nat, p: PushPc, c: nat)
    requires TailInv(a) && HeadInv(a) && PushInv(a, i, p) && (p.PushLoad? || p.PushBlock? || p.PushHead?)
    ensures GoodTail(a, i, DoPush(a, i, p, c))
  {
  }

  lemma PushTail(a: Shared, i: nat, p: PushPc, c: nat)
    requires TailInv(a) && HeadInv(a) && PushInv(a, i, p)
    ensures GoodTail(a, i, DoPush(a, i, p, c))
  {
    if p.PushLoop? {
      PushTry(a, i, p, c);
    } else if p.PushNext? {
      PushInstallsNext(a, i, p, c);
    } else if p.PushSkip? {
      PushSkips(a, i, p, c);
    } else if p.PushLink? {
      PushLinks(a, i, p, c);
    } else if p.PushWrite? {
      PushWrites(a, i, p, c);
    } else if p.PushMark? {
      PushMarks(a, i, p, c);
    } else {
      PushOther(a, i, p, c);
    }
  }

  /** A push that wins the compare-exchange on the tail. */
  predicate Wins(a: Shared, p: PushPc, c: nat) {
    && p.PushLoop? && !p.cl.On? && Offset(p.t) != BLOCK_CAP && p.b.Some?
    && c != 0 && a.tail == p.t && !a.closed.On?
  }

  lemma WinEffect(a: Shared, i: nat, p: PushPc, c: nat)
    requires Wins(a, p, c)
    ensures DoPush(a, i, p, c) ==
              Out(TailClaimed(a, i, p.t, p.v),
                  OnPush(if Offset(p.t) + 1 == BLOCK_CAP then PushNext(p.v, p.t, p.b.value)
                         else PushWrite(p.v, p.t, p.b.value)))
  {
  }

  /** Pushing leaves the head, apart from its first block, and the poppers alone. */
  lemma PushSlots(a: Shared, i: nat, p: PushPc, c: nat)
    ensures var o := DoPush(a, i, p, c); SameSlots(a, o.sh) && o.sh.head == a.head && o.sh.mark == a.mark
    ensures p.PushHead? || DoPush(a, i, p, c).sh.headBlock == a.headBlock
  {
    if Wins(a, p, c) {
      WinEffect(a, i, p, c);
    } else if p.PushLoop? {
      RetrySlots(a, i, p, c);
    }
  }

  lemma RetrySlots(a: Shared, i: nat, p: PushPc, c: nat)
    requires p.PushLoop? && !Wins(a, p, c)
    ensures var b := DoPush(a, i, p, c).sh; b == a || b == a.(tailBlock := Some(0), installer := Some(i))
  {
  }

  lemma PushHeadRely(a: Shared, b: Shared, i: nat)
    requires HeadInv(a) && SameSlots(a, b) && b.head == a.head
    requires b.headBlock == a.headBlock || a.headBlock.None?
    ensures HeadRely(a, b, i)
  {
  }

  lemma PushStep(a: Shared, i: nat, p: PushPc, c: nat)
    requires SharedInv(a) && PushInv(a, i, p)
    ensures Good(a, i, DoPush(a, i, p, c))
  {
    var o := DoPush(a, i, p, c);
    PushTail(a, i, p, c);
    PushSlots(a, i, p, c);
    PushHeadRely(a, o.sh, i);
    TokensFrame(a, o.sh);
    PopFrame(a, o.sh);
  }

  // ---------------------------------------------------------------- pop steps

  /** A step that changes nothing but its own program counter. */
  lemma Stutter(a: Shared, i: nat, q: Pc)
    requires SharedInv(a) && ThreadInv(a, i, q)
    ensures Good(a, i, Out(a, q))
  {
  }

  /** A block's token keeps its meaning when its slots do not change. */
  lemma TokenKept(a: Shared, b: Shared, blk: nat)
    requires TokenInv(a, blk) && TokenOf(b, blk) == TokenOf(a, blk)
    requires a.read <= b.read && (forall n :: n in b.popped && n !in a.popped ==> n != At(blk, 30))
    requires forall n :: n in a.popped ==> n in b.popped
    requires forall n :: n in a.doomed ==> n in b.doomed
    requires TokenOf(a, blk).AtSlot? ==> At(blk, TokenOf(a, blk).k) !in b.read
    requires TokenOf(a, blk).With? ==> TokenOf(a, blk).n in b.poppers
    ensures TokenInv(b, blk)
  {
  }

  lemma ClaimHeadSlots(a: Shared, i: nat, h: nat, m': Flag)
    requires PopInv(a) && TokensInv(a) && a.head == h && IsSlot(h)
    ensures var b := HeadClaimed(a, i, h, m');
            PopInv(b) && TokensInv(b)
  {
    var b := HeadClaimed(a, i, h, m');
    forall blk: nat ensures TokenInv(b, blk) {
      TokenKept(a, b, blk);
    }
    forall n: nat | n < b.head && IsSlot(n) && n !in b.poppers ensures Finished(b, n) {
      assert Finished(a, n);
    }
  }

  /** A successful compare-exchange of the head claims its position: the queue was
      not empty, either because the tail was seen beyond it or because of the mark. */
  lemma ClaimHead(a: Shared, i: nat, h: nat, m': Flag)
    requires HeadInv(a) && a.head == h && IsSlot(h) && h < a.tail && a.headBlock.Some?
    requires m'.On? ==> Lap(h) < Lap(a.tail)
    ensures HeadInv(HeadClaimed(a, i, h, m'))
  {
  }

  lemma ClaimHeadRely(a: Shared, i: nat, h: nat, m': Flag)
    requires PopInv(a) && a.head == h && IsSlot(h)
    ensures var b := HeadClaimed(a, i, h, m');
            HeadRely(a, b, i) && h !in b.popped && h !in b.read
  {
  }

  /** What a successful claim leaves of the shared invariant. */
  lemma PopWins(a: Shared, i: nat, h: nat, m': Flag)
    requires SharedInv(a) && a.head == h && IsSlot(h) && h < a.tail && a.headBlock.Some?
    requires m'.On? ==> Lap(h) < Lap(a.tail)
    ensures var b := HeadClaimed(a, i, h, m');
            SharedInv(b) && TailRely(a, b, i) && HeadRely(a, b, i) && h !in b.popped && h !in b.read
  {
    var b := HeadClaimed(a, i, h, m');
    TailFrame(a, b, i);
    ClaimHead(a, i, h, m');
    ClaimHeadRely(a, i, h, m');
    ClaimHeadSlots(a, i, h, m');
  }

  /** The thread that claimed position `h` knows its block and that nobody has read it. */
  lemma WinnerKnows(a: Shared, i: nat, h: nat)
    requires h in a.poppers && a.poppers[h] == i && IsSlot(h) && a.head == h + 1 && a.headBlock == Some(Lap(h))
    requires h !in a.popped && h !in a.read
    ensures ThreadInv(a, i, OnPop(if Offset(h) + 1 == BLOCK_CAP then PopNext(h, Lap(h)) else PopWait(h, Lap(h))))
  {
  }

  lemma PopWinsStep(a: Shared, i: nat, p: PopPc, c: nat)
    requires SharedInv(a) && PoppingInv(a, i, p) && p.PopCas?
    requires p.b.Some? && c != 0 && a.head == p.h && a.mark == p.m
    ensures Good(a, i, DoPop(a, i, p, c))
  {
    KnowsBlock(a, i, p);
    PopWins(a, i, p.h, p.m');
    WinnerKnows(DoPop(a, i, p, c).sh, i, p.h);
  }

  lemma KnowsBlock(a: Shared, i: nat, p: PopPc)
    requires HeadInv(a) && PoppingInv(a, i, p) && p.PopCas? && p.b.Some? && a.head == p.h && a.mark == p.m
    ensures p.b == Some(Lap(p.h)) == a.headBlock && IsSlot(p.h) && p.h < a.tail
    ensures p.m'.On? ==> Lap(p.h) < Lap(a.tail)
  {
  }

  /** A failed compare-exchange, or a block that is not there yet. */
  lemma PopRetries(a: Shared, i: nat, p: PopPc, c: nat)
    requires SharedInv(a) && p.PopCas? && !(p.b.Some? && c != 0 && a.head == p.h && a.mark == p.m)
    ensures Good(a, i, DoPop(a, i, p, c))
  {
    Stutter(a, i, DoPop(a, i, p, c).pc);
  }

  lemma PopTry(a: Shared, i: nat, p: PopPc, c: nat)
    requires SharedInv(a) && PoppingInv(a, i, p) && p.PopCas?
    ensures Good(a, i, DoPop(a, i, p, c))
  {
    if p.b.Some? && c != 0 && a.head == p.h && a.mark == p.m {
      PopWinsStep(a, i, p, c);
    } else {
      PopRetries(a, i, p, c);
    }
  }

  lemma PopLooks(a: Shared, i: nat, p: PopPc, c: nat)
    requires HeadInv(a) && PoppingInv(a, i, p) && (p.PopLoad? || p.PopBlock? || p.PopLoop?)
    ensures var o := DoPop(a, i, p, c); o.sh == a && ThreadInv(a, i, o.pc)
  {
  }

  lemma PopWaits(a: Shared, i: nat, p: PopPc, c: nat)
    requires PoppingInv(a, i, p) && (p.PopNext? || p.PopPeek? || p.PopWait?)
    ensures var o := DoPop(a, i, p, c); o.sh == a && ThreadInv(a, i, o.pc)
  {
    assert At(p.blk, Offset(p.n)) == p.n;
  }

  lemma PopQuiet(a: Shared, i: nat, p: PopPc, c: nat)
    requires SharedInv(a) && PoppingInv(a, i, p)
    requires p.PopLoad? || p.PopBlock? || p.PopLoop? || p.PopNext? || p.PopPeek? || p.PopWait?
    ensures Good(a, i, DoPop(a, i, p, c))
  {
    if p.PopLoad? || p.PopBlock? || p.PopLoop? {
      PopLooks(a, i, p, c);
    } else {
      PopWaits(a, i, p, c);
    }
    Stutter(a, i, DoPop(a, i, p, c).pc);
  }

  /** The popper of the last slot installs the next block and moves the head past
      the hand-over position. */
  lemma PopInstalls(a: Shared, i: nat, p: PopPc, c: nat)
    requires HeadInv(a) && PoppingInv(a, i, p) && p.PopHead?
    ensures var o := DoPop(a, i, p, c);
            HeadInv(o.sh) && HeadRely(a, o.sh, i) && ThreadInv(o.sh, i, o.pc)
  {
  }

  lemma PopSkips(a: Shared, i: nat, p: PopPc, c: nat)
    requires HeadInv(a) && PoppingInv(a, i, p) && p.PopSkip?
    requires At(p.blk, 32) <= a.tail && (p.more.On? ==> At(p.blk + 1, 32) <= a.tail)
    ensures var o := DoPop(a, i, p, c);
            HeadInv(o.sh) && HeadRely(a, o.sh, i) && ThreadInv(o.sh, i, o.pc)
  {
  }

  lemma PopAdvanceSlots(a: Shared, i: nat, p: PopPc, c: nat)
    requires SharedInv(a) && PoppingInv(a, i, p) && (p.PopHead? || p.PopSkip?)
    ensures var o := DoPop(a, i, p, c); PopInv(o.sh) && TokensInv(o.sh) && SameTail(a, o.sh)
  {
    var o := DoPop(a, i, p, c);
    TokensFrame(a, o.sh);
    forall n: nat | n < o.sh.head && IsSlot(n) && n !in o.sh.poppers ensures Finished(o.sh, n) {
      assert n < a.head;
      assert Finished(a, n);
    }
  }

  lemma PopAdvance(a: Shared, i: nat, p: PopPc, c: nat)
    requires SharedInv(a) && PoppingInv(a, i, p) && (p.PopHead? || p.PopSkip?)
    ensures Good(a, i, DoPop(a, i, p, c))
  {
    if p.PopHead? {
      PopInstalls(a, i, p, c);
    } else {
      PopSkips(a, i, p, c);
    }
    PopAdvanceSlots(a, i, p, c);
    TailFrame(a, DoPop(a, i, p, c).sh, i);
  }

  /** Shared by the steps that only touch slots: what changes is confined to the
      position `n` that thread `i` owns and to the token of its block. */
  ghost predicate OwnSlot(a: Shared, b: Shared, i: nat, n: nat) {
    && SameTail(a, b) && SameHead(a, b)
    && n in a.poppers && a.poppers[n] == i
    && (b.poppers == a.poppers || b.poppers == Without(a.poppers, n))
    && (b.popped == a.popped || (n in b.popped && b.popped == a.popped[n := b.popped[n]]))
    && (b.read == a.read || b.read == a.read + {n})
    && (forall k: nat :: k != Lap(n) ==> TokenOf(b, k) == TokenOf(a, k))
    && (TokenOf(a, Lap(n)) != TokenOf(b, Lap(n)) ==>
          (TokenOf(a, Lap(n)).With? ==> TokenOf(a, Lap(n)).n == n) && TokenOf(b, Lap(n)) != NotYet)
  }

  /** What the poppers of one block rely on. */
  ghost predicate BlockInv(a: Shared, blk: nat) {
    && TokenInv(a, blk)
    && (forall x :: x in a.doomed && x !in a.read && Lap(x) == blk ==> TokenOf(a, blk) == AtSlot(Offset(x)))
    && a.frees[blk] == (if TokenOf(a, blk) == Freed then 1 else 0)
  }

  lemma EachBlock(a: Shared, blk: nat)
    requires TokensInv(a)
    ensures BlockInv(a, blk)
  {
    assert TokenInv(a, blk);
  }

  /** A step of the popper of `n` on its slot and its block. */
  ghost predicate SlotStep(a: Shared, b: Shared, i: nat, n: nat) {
    && OwnSlot(a, b, i, n) && BlockInv(b, Lap(n))
    && (n in b.popped ==> n in a.claimed && n in a.written && b.popped[n] == a.claimed[n])
    && (n in b.read ==> Offset(n) < 30 && n in b.popped)
    && (n !in b.poppers ==> Finished(b, n))
    && a.doomed <= b.doomed && (forall x :: x in b.doomed && x !in a.doomed ==> Lap(x) == Lap(n))
    && (forall k: nat :: k != Lap(n) ==> b.frees[k] == a.frees[k])
  }

  lemma OwnSlotRely(a: Shared, b: Shared, i: nat, n: nat)
    requires TailInv(a) && HeadInv(a) && OwnSlot(a, b, i, n)
    ensures TailInv(b) && HeadInv(b) && TailRely(a, b, i) && HeadRely(a, b, i)
  {
    TailFrame(a, b, i);
  }

  lemma OwnSlotPops(a: Shared, b: Shared, i: nat, n: nat)
    requires PopInv(a) && SlotStep(a, b, i, n)
    ensures PopInv(b)
  {
    forall k: nat | k < b.head && IsSlot(k) && k !in b.poppers ensures Finished(b, k) {
      if k != n {
        assert Finished(a, k);
      }
    }
  }

  lemma OwnSlotTokens(a: Shared, b: Shared, i: nat, n: nat)
    requires TokensInv(a) && SlotStep(a, b, i, n)
    ensures TokensInv(b)
  {
    forall blk: nat ensures TokenInv(b, blk) {
      if blk != Lap(n) {
        TokenKept(a, b, blk);
      }
    }
  }

  lemma SlotStepGood(a: Shared, i: nat, n: nat, o: Out)
    requires SharedInv(a) && SlotStep(a, o.sh, i, n) && ThreadInv(o.sh, i, o.pc)
    ensures Good(a, i, o)
  {
    OwnSlotRely(a, o.sh, i, n);
    OwnSlotPops(a, o.sh, i, n);
    OwnSlotTokens(a, o.sh, i, n);
  }

  /** The popper of a position whose value is written and has not been read. */
  predicate Unread(a: Shared, i: nat, n: nat) {
    && PopClaim(a, i, n, Lap(n)) && n !in a.popped && n !in a.read
    && n in a.written && n in a.claimed && n in a.vals && a.vals[n] == a.claimed[n]
  }

  /** The last slot's value is out: its popper takes up the duty to free the block. */
  lemma TakeLast(a: Shared, i: nat, n: nat)
    requires BlockInv(a, Lap(n)) && Unread(a, i, n) && Offset(n) == 30
    ensures var b := TookLast(a, n, Lap(n), a.claimed[n]);
            SlotStep(a, b, i, n) && ThreadInv(b, i, OnPop(FreeLoad(n, Lap(n), 0)))
  {
    assert At(Lap(n), 30) == n;
  }

  lemma TakeEarlier(a: Shared, i: nat, n: nat)
    requires BlockInv(a, Lap(n)) && Unread(a, i, n) && Offset(n) < 30
    ensures var b := Took(a, n, a.claimed[n]);
            SlotStep(a, b, i, n) && ThreadInv(b, i, OnPop(PopMark(n, Lap(n))))
  {
    TokenKept(a, Took(a, n, a.claimed[n]), Lap(n));
  }

  lemma PopTakeLast(a: Shared, i: nat, p: PopPc, c: nat)
    requires SharedInv(a) && PoppingInv(a, i, p) && p.PopRead? && Offset(p.n) == 30
    ensures Good(a, i, DoPop(a, i, p, c))
  {
    assert At(p.blk, Offset(p.n)) == p.n;
    EachBlock(a, p.blk);
    TakeLast(a, i, p.n);
    SlotStepGood(a, i, p.n, DoPop(a, i, p, c));
  }

  lemma PopTakeEarlier(a: Shared, i: nat, p: PopPc, c: nat)
    requires SharedInv(a) && PoppingInv(a, i, p) && p.PopRead? && Offset(p.n) != 30
    ensures Good(a, i, DoPop(a, i, p, c))
  {
    assert At(p.blk, Offset(p.n)) == p.n;
    EachBlock(a, p.blk);
    TakeEarlier(a, i, p.n);
    SlotStepGood(a, i, p.n, DoPop(a, i, p, c));
  }

  /** The popper of a position whose value is out and whose READ bit is not set. */
  predicate Unmarked(a: Shared, i: nat, n: nat) {
    && PopClaim(a, i, n, Lap(n)) && n in a.popped && n !in a.read && Offset(n) < 30
    && n in a.claimed && n in a.written && a.popped[n] == a.claimed[n]
  }

  /** READ is set on a slot without DESTROY: its popper is done. */
  lemma ReadQuietly(a: Shared, i: nat, n: nat)
    requires BlockInv(a, Lap(n)) && Unmarked(a, i, n) && n !in a.doomed
    ensures var b := ReadAndLeft(a, n, Lap(n)); SlotStep(a, b, i, n) && ThreadInv(b, i, Gives(a, n))
  {
    assert At(Lap(n), Offset(n)) == n;
    TokenKept(a, ReadAndLeft(a, n, Lap(n)), Lap(n));
  }

  /** READ is set on a slot that carries DESTROY: the duty moves to its popper. */
  lemma ReadDoomed(a: Shared, i: nat, n: nat)
    requires BlockInv(a, Lap(n)) && Unmarked(a, i, n) && n in a.doomed
    ensures var b := ReadWithDuty(a, n, Lap(n));
            SlotStep(a, b, i, n) && ThreadInv(b, i, OnPop(FreeLoad(n, Lap(n), Offset(n) + 1)))
  {
    assert At(Lap(n), Offset(n)) == n;
    assert TokenOf(a, Lap(n)) == AtSlot(Offset(n));
  }

  lemma PopRelease(a: Shared, i: nat, p: PopPc, c: nat)
    requires SharedInv(a) && PoppingInv(a, i, p) && p.PopMark?
    ensures Good(a, i, DoPop(a, i, p, c))
  {
    if p.n in a.doomed {
      PopReleaseDoomed(a, i, p, c);
    } else {
      PopReleaseQuietly(a, i, p, c);
    }
  }

  lemma PopReleaseDoomed(a: Shared, i: nat, p: PopPc, c: nat)
    requires SharedInv(a) && PoppingInv(a, i, p) && p.PopMark? && p.n in a.doomed
    ensures Good(a, i, DoPop(a, i, p, c))
  {
    assert At(p.blk, Offset(p.n)) == p.n;
    EachBlock(a, p.blk);
    ReadDoomed(a, i, p.n);
    SlotStepGood(a, i, p.n, DoPop(a, i, p, c));
  }

  lemma PopReleaseQuietly(a: Shared, i: nat, p: PopPc, c: nat)
    requires SharedInv(a) && PoppingInv(a, i, p) && p.PopMark? && p.n !in a.doomed
    ensures Good(a, i, DoPop(a, i, p, c))
  {
    assert At(p.blk, Offset(p.n)) == p.n;
    EachBlock(a, p.blk);
    ReadQuietly(a, i, p.n);
    SlotStepGood(a, i, p.n, DoPop(a, i, p, c));
  }

  predicate Duty(a: Shared, i: nat, n: nat, j: nat) {
    && PopClaim(a, i, n, Lap(n)) && TokenOf(a, Lap(n)) == With(n)
    && j <= 30 && AllRead(a, Lap(n), j) && (Offset(n) < 30 ==> n in a.read)
    && n in a.popped && n in a.claimed && n in a.written && a.popped[n] == a.claimed[n]
  }

  lemma FreeBlock(a: Shared, i: nat, n: nat)
    requires BlockInv(a, Lap(n)) && Duty(a, i, n, 30) && (n in a.read ==> Offset(n) < 30)
    ensures var b := BlockFreed(a, n, Lap(n)); SlotStep(a, b, i, n) && ThreadInv(b, i, Gives(a, n))
  {
  }

  lemma HandOver(a: Shared, i: nat, n: nat, j: nat)
    requires BlockInv(a, Lap(n)) && Duty(a, i, n, j) && j < 30 && At(Lap(n), j) !in a.read
    requires n in a.read ==> Offset(n) < 30
    ensures var b := HandedOver(a, n, Lap(n), j); SlotStep(a, b, i, n) && ThreadInv(b, i, Gives(a, n))
  {
  }

  lemma DoomedTooLate(a: Shared, i: nat, n: nat, j: nat)
    requires BlockInv(a, Lap(n)) && Duty(a, i, n, j) && j < 30 && At(Lap(n), j) in a.read
    requires n in a.read ==> Offset(n) < 30
    ensures var b := Doomed(a, Lap(n), j);
            SlotStep(a, b, i, n) && ThreadInv(b, i, OnPop(FreeLoad(n, Lap(n), j + 1)))
  {
    TokenKept(a, Doomed(a, Lap(n), j), Lap(n));
  }

  lemma OnDuty(a: Shared, i: nat, p: PopPc)
    requires PopInv(a) && TokensInv(a) && PoppingInv(a, i, p) && (p.FreeLoad? || p.FreeOr?)
    ensures p.blk == Lap(p.n) && BlockInv(a, Lap(p.n)) && Duty(a, i, p.n, p.j) && (p.n in a.read ==> Offset(p.n) < 30)
  {
    EachBlock(a, p.blk);
  }

  lemma PopFreeOn(a: Shared, i: nat, p: PopPc, c: nat)
    requires SharedInv(a) && PoppingInv(a, i, p) && p.FreeOr? && At(p.blk, p.j) in a.read
    ensures Good(a, i, DoPop(a, i, p, c))
  {
    OnDuty(a, i, p);
    DoomedTooLate(a, i, p.n, p.j);
    SlotStepGood(a, i, p.n, DoPop(a, i, p, c));
  }

  lemma PopFreeOver(a: Shared, i: nat, p: PopPc, c: nat)
    requires SharedInv(a) && PoppingInv(a, i, p) && p.FreeOr? && At(p.blk, p.j) !in a.read
    ensures Good(a, i, DoPop(a, i, p, c))
  {
    OnDuty(a, i, p);
    HandOver(a, i, p.n, p.j);
    SlotStepGood(a, i, p.n, DoPop(a, i, p, c));
  }

  lemma PopFreeEnd(a: Shared, i: nat, p: PopPc, c: nat)
    requires SharedInv(a) && PoppingInv(a, i, p) && p.FreeLoad? && p.j == 30
    ensures Good(a, i, DoPop(a, i, p, c))
  {
    OnDuty(a, i, p);
    FreeBlock(a, i, p.n);
    SlotStepGood(a, i, p.n, DoPop(a, i, p, c));
  }

  lemma PopScan(a: Shared, i: nat, p: PopPc, c: nat)
    requires SharedInv(a) && PoppingInv(a, i, p) && p.FreeLoad? && p.j < 30
    ensures Good(a, i, DoPop(a, i, p, c))
  {
    ScanLooks(a, i, p, c);
    Stutter(a, i, DoPop(a, i, p, c).pc);
  }

  lemma ScanLooks(a: Shared, i: nat, p: PopPc, c: nat)
    requires PoppingInv(a, i, p) && p.FreeLoad? && p.j < 30
    ensures var o := DoPop(a, i, p, c); o.sh == a && ThreadInv(a, i, o.pc)
  {
  }

  predicate TouchesSlot(p: PopPc) { p.PopRead? || p.PopMark? || p.FreeLoad? || p.FreeOr? }

  lemma PopSlotStep(a: Shared, i: nat, p: PopPc, c: nat)
    requires SharedInv(a) && PoppingInv(a, i, p) && TouchesSlot(p)
    ensures Good(a, i, DoPop(a, i, p, c))
  {
    if p.PopRead? && Offset(p.n) == 30 {
      PopTakeLast(a, i, p, c);
    } else if p.PopRead? {
      PopTakeEarlier(a, i, p, c);
    } else if p.PopMark? {
      PopRelease(a, i, p, c);
    } else if p.FreeLoad? && p.j == 30 {
      PopFreeEnd(a, i, p, c);
    } else if p.FreeLoad? {
      PopScan(a, i, p, c);
    } else if At(p.blk, p.j) in a.read {
      PopFreeOn(a, i, p, c);
    } else {
      PopFreeOver(a, i, p, c);
    }
  }

  lemma PopStep(a: Shared, i: nat, p: PopPc, c: nat)
    requires SharedInv(a) && PoppingInv(a, i, p)
    ensures Good(a, i, DoPop(a, i, p, c))
  {
    if TouchesSlot(p) {
      PopSlotStep(a, i, p, c);
    } else if p.PopCas? {
      PopTry(a, i, p, c);
    } else if p.PopHead? || p.PopSkip? {
      PopAdvance(a, i, p, c);
    } else {
      PopQuiet(a, i, p, c);
    }
  }

  // ---------------------------------------------------------------- all threads

  /** The position a thread has claimed and not yet finished with. */
  function PushOf(p: Pc): Option<nat> {
    match p
    case OnPush(PushNext(_, n, _)) => Some(n)
    case OnPush(PushSkip(_, n, _)) => Some(n)
    case OnPush(PushLink(_, n, _)) => Some(n)
    case OnPush(PushWrite(_, n, _)) => Some(n)
    case OnPush(PushMark(_, n, _)) => Some(n)
    case _ => None
  }

  function PopOf(p: Pc): Option<nat> {
    match p
    case OnPop(PopNext(n, _)) => Some(n)
    case OnPop(PopPeek(n, _)) => Some(n)
    case OnPop(PopHead(n, _, _)) => Some(n)
    case OnPop(PopSkip(n, _, _)) => Some(n)
    case OnPop(PopWait(n, _)) => Some(n)
    case OnPop(PopRead(n, _)) => Some(n)
    case OnPop(PopMark(n, _)) => Some(n)
    case OnPop(FreeLoad(n, _, _)) => Some(n)
    case OnPop(FreeOr(n, _, _)) => Some(n)
    case _ => None
  }

  predicate Installs(p: Pc) { p.OnPush? && p.push.PushHead? }

  /** Every claim on record belongs to a thread that is still working on it. */
  ghost predicate Manned(s: State) {
    && (s.sh.installer.Some? ==>
          s.sh.installer.value < |s.pcs| && Installs(s.pcs[s.sh.installer.value]))
    && (forall n :: n in s.sh.pushers ==>
          s.sh.pushers[n] < |s.pcs| && PushOf(s.pcs[s.sh.pushers[n]]) == Some(n))
    && (forall n :: n in s.sh.poppers ==>
          s.sh.poppers[n] < |s.pcs| && PopOf(s.pcs[s.sh.poppers[n]]) == Some(n))
  }

  ghost predicate Inv(s: State) {
    && SharedInv(s.sh) && Manned(s)
    && forall i :: 0 <= i < |s.pcs| ==> ThreadInv(s.sh, i, s.pcs[i])
  }

  /** How a step changes the claims on record. */
  ghost predicate PushRecorded(a: Shared, i: nat, p: Pc, o: Out) {
    && o.sh.poppers == a.poppers && PopOf(o.pc) == None
    && (o.sh.installer.Some? ==>
          || (o.sh.installer == Some(i) && Installs(o.pc))
          || (o.sh.installer == a.installer && !Installs(p)))
    && (forall n :: n in o.sh.pushers && PushOf(o.pc) != Some(n) ==>
          n in a.pushers && a.pushers[n] == o.sh.pushers[n] && PushOf(p) != Some(n))
    && (PushOf(o.pc).Some? ==> PushOf(o.pc).value in o.sh.pushers && o.sh.pushers[PushOf(o.pc).value] == i)
  }

  lemma PushWinClaims(a: Shared, i: nat, p: PushPc, c: nat)
    requires Wins(a, p, c)
    ensures PushRecorded(a, i, OnPush(p), DoPush(a, i, p, c))
  {
    WinEffect(a, i, p, c);
  }

  lemma PushLoopClaims(a: Shared, i: nat, p: PushPc, c: nat)
    requires p.PushLoop? && !Wins(a, p, c)
    ensures PushRecorded(a, i, OnPush(p), DoPush(a, i, p, c))
  {
    RetrySlots(a, i, p, c);
  }

  lemma PushClaims(a: Shared, i: nat, p: PushPc, c: nat)
    requires PushInv(a, i, p)
    ensures PushRecorded(a, i, OnPush(p), DoPush(a, i, p, c))
  {
    if Wins(a, p, c) {
      PushWinClaims(a, i, p, c);
    } else if p.PushLoop? {
      PushLoopClaims(a, i, p, c);
    }
  }

  ghost predicate PopRecorded(a: Shared, i: nat, p: Pc, o: Out) {
    && o.sh.pushers == a.pushers && PushOf(o.pc) == None && o.sh.installer == a.installer
    && (forall n :: n in o.sh.poppers && PopOf(o.pc) != Some(n) ==>
          n in a.poppers && a.poppers[n] == o.sh.poppers[n] && PopOf(p) != Some(n))
    && (PopOf(o.pc).Some? ==> PopOf(o.pc).value in o.sh.poppers && o.sh.poppers[PopOf(o.pc).value] == i)
  }

  predicate MayFinish(p: PopPc) { p.PopMark? || p.FreeLoad? || p.FreeOr? }

  lemma PopMarkClaims(a: Shared, i: nat, p: PopPc, c: nat)
    requires PoppingInv(a, i, p) && p.PopMark?
    ensures PopRecorded(a, i, OnPop(p), DoPop(a, i, p, c))
  {
  }

  lemma PopFreeClaims(a: Shared, i: nat, p: PopPc, c: nat)
    requires PoppingInv(a, i, p) && (p.FreeLoad? || p.FreeOr?)
    ensures PopRecorded(a, i, OnPop(p), DoPop(a, i, p, c))
  {
  }

  lemma PopCasClaims(a: Shared, i: nat, p: PopPc, c: nat)
    requires p.PopCas?
    ensures PopRecorded(a, i, OnPop(p), DoPop(a, i, p, c))
  {
    if !(p.b.Some? && c != 0 && a.head == p.h && a.mark == p.m) {
      assert DoPop(a, i, p, c).sh == a;
    }
  }

  lemma PopReadClaims(a: Shared, i: nat, p: PopPc, c: nat)
    requires PoppingInv(a, i, p) && p.PopRead?
    ensures PopRecorded(a, i, OnPop(p), DoPop(a, i, p, c))
  {
  }

  lemma PopOtherClaims(a: Shared, i: nat, p: PopPc, c: nat)
    requires PoppingInv(a, i, p) && !MayFinish(p) && !p.PopCas? && !p.PopRead?
    ensures PopRecorded(a, i, OnPop(p), DoPop(a, i, p, c))
  {
  }

  lemma PopClaims(a: Shared, i: nat, p: PopPc, c: nat)
    requires PoppingInv(a, i, p)
    ensures PopRecorded(a, i, OnPop(p), DoPop(a, i, p, c))
  {
    if p.PopMark? {
      PopMarkClaims(a, i, p, c);
    } else if p.FreeLoad? || p.FreeOr? {
      PopFreeClaims(a, i, p, c);
    } else if p.PopCas? {
      PopCasClaims(a, i, p, c);
    } else if p.PopRead? {
      PopReadClaims(a, i, p, c);
    } else {
      PopOtherClaims(a, i, p, c);
    }
  }

  lemma HeadFrame(a: Shared, b: Shared, i: nat)
    requires HeadInv(a) && SameTail(a, b) && SameHead(a, b) && SameSlots(a, b)
    ensures HeadInv(b) && HeadRely(a, b, i)
  {
  }

  lemma Close(a: Shared, i: nat)
    requires SharedInv(a)
    ensures Good(a, i, DoIdle(a, 0))
  {
    var b := a.(closed := On);
    TailFrame(a, b, i);
    HeadFrame(a, b, i);
    TokensFrame(a, b);
    PopFrame(a, b);
  }

  /** Steps that only look, of calls other than push and pop. */
  lemma OtherLooks(a: Shared, i: nat, p: Pc, c: nat)
    requires a.head <= a.tail && ThreadInv(a, i, p) && !p.OnPush? && !p.OnPop? && !(p.Idle? && c == 0)
    ensures var o := Do(a, i, p, c); o.sh == a && ThreadInv(a, i, o.pc)
  {
  }

  lemma StepGood(a: Shared, i: nat, p: Pc, c: nat)
    requires SharedInv(a) && ThreadInv(a, i, p)
    ensures Good(a, i, Do(a, i, p, c))
  {
    if p.OnPush? {
      PushStep(a, i, p.push, c);
    } else if p.OnPop? {
      PopStep(a, i, p.pop, c);
    } else {
      OtherStep(a, i, p, c);
    }
  }

  lemma OtherStep(a: Shared, i: nat, p: Pc, c: nat)
    requires SharedInv(a) && ThreadInv(a, i, p) && !p.OnPush? && !p.OnPop?
    ensures Good(a, i, Do(a, i, p, c))
  {
    if p.Idle? && c == 0 {
      Close(a, i);
    } else {
      OtherLooks(a, i, p, c);
      Stutter(a, i, Do(a, i, p, c).pc);
    }
  }

  lemma MannedAfterPush(s: State, i: nat, o: Out)
    requires Manned(s) && i < |s.pcs| && s.pcs[i].OnPush? && PushRecorded(s.sh, i, s.pcs[i], o)
    ensures Manned(State(o.sh, s.pcs[i := o.pc]))
  {
  }

  lemma MannedAfterPop(s: State, i: nat, o: Out)
    requires Manned(s) && i < |s.pcs| && s.pcs[i].OnPop? && PopRecorded(s.sh, i, s.pcs[i], o)
    ensures Manned(State(o.sh, s.pcs[i := o.pc]))
  {
  }

  lemma MannedAfterOther(s: State, i: nat, o: Out)
    requires Manned(s) && i < |s.pcs| && !s.pcs[i].OnPush? && !s.pcs[i].OnPop?
    requires o.sh.installer == s.sh.installer && o.sh.pushers == s.sh.pushers && o.sh.poppers == s.sh.poppers
    ensures Manned(State(o.sh, s.pcs[i := o.pc]))
  {
  }

  lemma StillManned(s: State, i: nat, c: nat)
    requires Manned(s) && i < |s.pcs| && ThreadInv(s.sh, i, s.pcs[i])
    ensures Manned(Move(s, (i, c)))
  {
    var p := s.pcs[i];
    var o := Do(s.sh, i, p, c);
    if p.OnPush? {
      PushClaims(s.sh, i, p.push, c);
      MannedAfterPush(s, i, o);
    } else if p.OnPop? {
      PopClaims(s.sh, i, p.pop, c);
      MannedAfterPop(s, i, o);
    } else {
      MannedAfterOther(s, i, o);
    }
  }

  lemma StepKeeps(s: State, i: nat, c: nat)
    requires Inv(s) && i < |s.pcs|
    ensures Inv(Move(s, (i, c)))
  {
    StepGood(s.sh, i, s.pcs[i], c);
    StillManned(s, i, c);
    var t := Move(s, (i, c));
    forall j | 0 <= j < |t.pcs| ensures ThreadInv(t.sh, j, t.pcs[j]) {
      if j != i {
        OthersKeep(s.sh, t.sh, i, j, s.pcs[j]);
      }
    }
  }

  lemma {:induction false} RunKeeps(s: State, moves: seq<(nat, nat)>)
    requires Inv(s)
    ensures Inv(Execute(s, moves))
    decreases |moves|
  {
    if moves != [] {
      if moves[0].0 < |s.pcs| {
        StepKeeps(s, moves[0].0, moves[0].1);
      }
      RunKeeps(Move(s, moves[0]), moves[1..]);
    }
  }

  /** The invariant holds in every state of every run, for any number of threads. */
  lemma Reachable(s: State, moves: seq<(nat, nat)>)
    requires Init(s)
    ensures Inv(Execute(s, moves))
  {
    RunKeeps(s, moves);
  }

  // ---------------------------------------------------------------- what runs guarantee

  /** First in, first out: what is popped from the n-th claimed position is what was
      pushed for it, positions are claimed in order on both sides, and no pop runs
      ahead of the pushes. */
  lemma FifoOrder(s: State, moves: seq<(nat, nat)>)
    requires Init(s)
    ensures var t := Execute(s, moves).sh;
            && t.head <= t.tail
            && (forall n: nat :: n in t.claimed <==> n < t.tail && IsSlot(n))
            && (forall n :: n in t.popped ==> n < t.head && n in t.claimed && t.popped[n] == t.claimed[n])
  {
    Reachable(s, moves);
  }

  /** Each value comes out at most once: whoever is about to read a position is the only
      popper working on it, and finds that it has not been popped before. */
  lemma PoppedOnce(s: State, moves: seq<(nat, nat)>, i: nat, n: nat, blk: nat)
    requires Init(s) && i < |Execute(s, moves).pcs| && Execute(s, moves).pcs[i] == OnPop(PopRead(n, blk))
    ensures var t := Execute(s, moves);
            n !in t.sh.popped && forall j :: 0 <= j < |t.pcs| && j != i ==> PopOf(t.pcs[j]) != Some(n)
  {
    Reachable(s, moves);
    var t := Execute(s, moves);
    assert ThreadInv(t.sh, i, t.pcs[i]);
    forall j | 0 <= j < |t.pcs| && j != i ensures PopOf(t.pcs[j]) != Some(n) {
      assert ThreadInv(t.sh, j, t.pcs[j]);
    }
  }

  /** The block a thread is about to access, if any. */
  function Touches(p: Pc): Option<nat> {
    match p
    case OnPush(PushLink(_, _, blk)) => Some(blk)
    case OnPush(PushWrite(_, _, blk)) => Some(blk)
    case OnPush(PushMark(_, _, blk)) => Some(blk)
    case OnPop(PopNext(_, blk)) => Some(blk)
    case OnPop(PopPeek(_, blk)) => Some(blk + 1)
    case OnPop(PopWait(_, blk)) => Some(blk)
    case OnPop(PopRead(_, blk)) => Some(blk)
    case OnPop(PopMark(_, blk)) => Some(blk)
    case OnPop(FreeLoad(_, blk, _)) => Some(blk)
    case OnPop(FreeOr(_, blk, _)) => Some(blk)
    case _ => None
  }

  /** A block is freed at most once, only after each of its 31 values has been
      popped, and no thread touches it afterwards. */
  lemma FreedOnceAndLast(s: State, moves: seq<(nat, nat)>, blk: nat, i: nat)
    requires Init(s) && i < |Execute(s, moves).pcs|
    ensures var t := Execute(s, moves);
            && t.sh.frees[blk] <= 1
            && (blk in t.sh.frees ==>
                  && (forall o :: 0 <= o < 31 ==> At(blk, o) in t.sh.popped)
                  && Touches(t.pcs[i]) != Some(blk))
  {
    Reachable(s, moves);
    var t := Execute(s, moves);
    assert TokenInv(t.sh, blk);
    assert ThreadInv(t.sh, i, t.pcs[i]);
    if blk in t.sh.frees {
      assert TokenOf(t.sh, blk) == Freed;
      forall o | 0 <= o < 31 ensures At(blk, o) in t.sh.popped {
        if o < 30 {
          assert At(blk, o) in t.sh.read;
        }
      }
      FreedUntouched(t.sh, i, t.pcs[i], blk);
    }
  }

  lemma FreedUntouched(a: Shared, i: nat, p: Pc, blk: nat)
    requires SharedInv(a) && ThreadInv(a, i, p) && TokenOf(a, blk) == Freed
    requires forall o :: 0 <= o < 31 ==> At(blk, o) in a.popped
    ensures Touches(p) != Some(blk)
  {
    assert TokenInv(a, blk);
    assert At(blk, 0) in a.popped;
    if Touches(p).Some? {
      if p.OnPush? {
        assert At(Lap(p.push.n), Offset(p.push.n)) == p.push.n;
      } else {
        assert At(Lap(p.pop.n), Offset(p.pop.n)) == p.pop.n;
      }
    }
  }

  /** No popper works on a position of the block. */
  predicate Unworked(s: State, blk: nat) {
    forall i :: 0 <= i < |s.pcs| && PopOf(s.pcs[i]).Some? ==> Lap(PopOf(s.pcs[i]).value) != blk
  }

  /** The duty to free is never lost: once all 31 values of a block are popped and
      no thread works on one of its positions, the block has been freed. */
  lemma FreedEventually(s: State, moves: seq<(nat, nat)>, blk: nat)
    requires Init(s)
    requires forall o :: 0 <= o < 31 ==> At(blk, o) in Execute(s, moves).sh.popped
    requires Unworked(Execute(s, moves), blk)
    ensures Execute(s, moves).sh.frees[blk] == 1
  {
    Reachable(s, moves);
    UnmannedIsFreed(Execute(s, moves), blk);
  }

  lemma UnmannedIsFreed(s: State, blk: nat)
    requires Inv(s) && forall o :: 0 <= o < 31 ==> At(blk, o) in s.sh.popped
    requires Unworked(s, blk)
    ensures s.sh.frees[blk] == 1
  {
    forall n | n in s.sh.poppers ensures Lap(n) != blk {
      assert PopOf(s.pcs[s.sh.poppers[n]]) == Some(n);
    }
    forall o: nat | o < 31 ensures Finished(s.sh, At(blk, o)) {
      PoppedIsFinished(s.sh, At(blk, o));
    }
    AllFinished(s.sh, blk);
  }

  lemma PoppedIsFinished(a: Shared, n: nat)
    requires PopInv(a) && n in a.popped && n !in a.poppers && IsSlot(n)
    ensures Finished(a, n)
  {
  }

  /** A block whose positions are all finished and out of their poppers' hands is freed. */
  lemma AllFinished(a: Shared, blk: nat)
    requires TokensInv(a) && forall o: nat :: o < 31 ==> Finished(a, At(blk, o))
    requires forall n :: n in a.poppers ==> Lap(n) != blk
    ensures a.frees[blk] == 1
  {
    assert TokenInv(a, blk);
    assert Finished(a, At(blk, 30));
    assert TokenOf(a, blk).AtSlot? ==> Finished(a, At(blk, TokenOf(a, blk).k));
  }

  /** Each answer is true at an instant inside the call that gives it: Empty and Closed
      when the tail is read, a length when the head was loaded. */
  ghost predicate Truthful(a: Shared, p: Pc, r: Answer) {
    match r
    case Pushed(n) => p.OnPush? && n in a.claimed && a.claimed[n] == p.push.v
    case Popped(n, x) => n in a.claimed && a.claimed[n] == x
    case WasEmpty => p.OnPop? && a.head == a.tail && a.closed.Off?
    case WasClosed => a.closed.On? && (p.OnPop? ==> a.head == a.tail)
    case Length(len) => p.OnLen? && p.len.LenCheck? && p.len.h <= p.len.t && len == LenOf(p.len.h, p.len.t)
                        && p.len.seen == |Slots(p.len.h, p.len.t)|
    case Closing(first) => first.On? <==> a.closed.Off?
  }

  lemma PushAnswers(a: Shared, i: nat, p: PushPc, c: nat)
    requires PushInv(a, i, p) && DoPush(a, i, p, c).pc.Said?
    ensures Truthful(a, OnPush(p), DoPush(a, i, p, c).pc.answer)
  {
  }

  lemma PopAnswers(a: Shared, i: nat, p: PopPc, c: nat)
    requires PopInv(a) && HeadInv(a) && PoppingInv(a, i, p) && DoPop(a, i, p, c).pc.Said?
    ensures Truthful(a, OnPop(p), DoPop(a, i, p, c).pc.answer)
  {
  }

  lemma AnswersAreTrue(s: State, moves: seq<(nat, nat)>, i: nat, c: nat)
    requires Init(s) && i < |Execute(s, moves).pcs|
    ensures var t := Execute(s, moves);
            var u := Move(t, (i, c));
            !t.pcs[i].Said? && u.pcs[i].Said? ==> Truthful(t.sh, t.pcs[i], u.pcs[i].answer)
  {
    Reachable(s, moves);
    var t := Execute(s, moves);
    var p := t.pcs[i];
    assert ThreadInv(t.sh, i, p);
    if Do(t.sh, i, p, c).pc.Said? {
      if p.OnPush? {
        PushAnswers(t.sh, i, p.push, c);
      } else if p.OnPop? {
        PopAnswers(t.sh, i, p.pop, c);
      }
    }
  }

  lemma ClosedPush(a: Shared, i: nat, p: PushPc, c: nat)
    requires a.closed.On?
    ensures var b := DoPush(a, i, p, c).sh; b.closed.On? && b.claimed == a.claimed
  {
    match p
    case PushLoop(v, t, cl, b) =>
    case _ =>
  }

  predicate TailKept(a: Shared, b: Shared) {
    b.tail == a.tail && b.linked == a.linked && b.pushers == a.pushers && b.closed == a.closed && b.claimed == a.claimed
  }

  lemma PopReadLeavesTail(a: Shared, i: nat, p: PopPc, c: nat)
    requires p.PopRead?
    ensures TailKept(a, DoPop(a, i, p, c).sh)
  {
  }

  lemma PopMarkLeavesTail(a: Shared, i: nat, p: PopPc, c: nat)
    requires p.PopMark?
    ensures TailKept(a, DoPop(a, i, p, c).sh)
  {
  }

  lemma FreeLoadLeavesTail(a: Shared, i: nat, p: PopPc, c: nat)
    requires p.FreeLoad?
    ensures TailKept(a, DoPop(a, i, p, c).sh)
  {
  }

  lemma FreeOrLeavesTail(a: Shared, i: nat, p: PopPc, c: nat)
    requires p.FreeOr?
    ensures TailKept(a, DoPop(a, i, p, c).sh)
  {
  }

  lemma PopCasLeavesTail(a: Shared, i: nat, p: PopPc, c: nat)
    requires p.PopCas?
    ensures TailKept(a, DoPop(a, i, p, c).sh)
  {
  }

  /** Popping leaves the tail's side alone. */
  lemma PopLeavesTail(a: Shared, i: nat, p: PopPc, c: nat)
    ensures TailKept(a, DoPop(a, i, p, c).sh)
  {
    if p.PopCas? {
      PopCasLeavesTail(a, i, p, c);
    } else if p.PopRead? {
      PopReadLeavesTail(a, i, p, c);
    } else if p.PopMark? {
      PopMarkLeavesTail(a, i, p, c);
    } else if p.FreeLoad? {
      FreeLoadLeavesTail(a, i, p, c);
    } else if p.FreeOr? {
      FreeOrLeavesTail(a, i, p, c);
    }
  }

  /** After `close` no further value is accepted, however the run goes on. */
  lemma {:induction false} ClosedForGood(s: State, moves: seq<(nat, nat)>)
    requires s.sh.closed.On?
    ensures Execute(s, moves).sh.closed.On? && Execute(s, moves).sh.claimed == s.sh.claimed
    decreases |moves|
  {
    if moves != [] {
      var (i, c) := moves[0];
      if i < |s.pcs| {
        if s.pcs[i].OnPush? {
          ClosedPush(s.sh, i, s.pcs[i].push, c);
        } else if s.pcs[i].OnPop? {
          PopLeavesTail(s.sh, i, s.pcs[i].pop, c);
        }
      }
      ClosedForGood(Move(s, moves[0]), moves[1..]);
    }
  }
}
