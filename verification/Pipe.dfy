/** The single-reader single-writer byte pipe of runtime/blocking/blocking.rs. Cursors
    run modulo twice the capacity; each side works with a cached copy of the
    other's cursor; the buffer is zeroed lazily. */
module Pipe {
  import opened Tally

  // ---------------------------------------------------------------- cursors

  /** How far `b` is ahead of `a`, both below `2 * cap`. */
  function Distance(cap: nat, a: nat, b: nat): int { if a <= b then b - a else 2 * cap - (a - b) }

  /** The buffer index of a cursor. */
  function RealIndex(cap: nat, i: nat): int { if i < cap then i else i - cap }

  function Advance(cap: nat, i: nat, n: nat): nat { if i + n < 2 * cap then i + n else 0 }

  const CHUNK: nat := 128 * 1024

  // ---------------------------------------------------------------- the machine

  /** `REnd` is the point at which `drain` has answered 0, the end of the stream. */
  datatype ReadPc = RIdle | RLoad(again: Flag) | RClosed | REnd | REnter | RLoop | RPublish | RGone

  datatype WritePc =
    | WIdle
    | WLoad(again: Flag)
    | WClosed
    | WEnter
    | WLoop
    | WRead(n: nat)
    | WStore(n: nat)
    | WPublish
    | WGone

  datatype Reader = Reader(head: nat, tail: nat, pc: ReadPc)

  datatype Writer = Writer(head: nat, tail: nat, zeroed: nat, pc: WritePc)

  type Buffer = seq<Option<int>>

  /** The pipe with both its ends; a `None` in the buffer is an uninitialised byte.
      Histories: the bytes `fill` has taken in and `drain` has handed out, and, for each
      cursor held as a word, how many bytes it stands for. */
  datatype State = State(
    cap: nat, head: nat, tail: nat, closed: Flag, buffer: Buffer, r: Reader, w: Writer,
    taken: seq<int>, delivered: seq<int>, headAt: nat, tailAt: nat, tailSeen: nat, headSeen: nat)

  /** What the environment decides in one step: a count and the bytes a source yields. */
  datatype Choice = Choice(k: nat, bytes: seq<int>)

  function BytesAt(b: Buffer, from: nat, n: nat): (s: seq<int>)
    requires from + n <= |b|
    ensures |s| == n && forall i :: 0 <= i < n && b[from + i].Some? ==> s[i] == b[from + i].value
  {
    if n == 0 then []
    else BytesAt(b, from, n - 1) + [if b[from + n - 1].Some? then b[from + n - 1].value else 0]
  }

  /** Stores bytes from index `from` on. */
  function Written(b: Buffer, from: nat, bytes: seq<int>): (r: Buffer)
    requires from + |bytes| <= |b|
    ensures |r| == |b|
    ensures forall i :: 0 <= i < |b| ==> r[i] == (if from <= i < from + |bytes| then Some(bytes[i - from]) else b[i])
    decreases |bytes|
  {
    if bytes == [] then b
    else Written(b[from := Some(bytes[0])], from + 1, bytes[1..])
  }

  /** `write_bytes(0, ..)` on the indices from `from` up to `end`. */
  function Zeroed(b: Buffer, from: nat, end: nat): (r: Buffer)
    requires from <= end <= |b|
    ensures |r| == |b|
    ensures forall i :: 0 <= i < |b| ==> r[i] == (if from <= i < end then Some(0) else b[i])
    decreases end - from
  {
    if from == end then b else Zeroed(b[from := Some(0)], from + 1, end)
  }

  function WriterAt(s: State, p: WritePc): State { s.(w := s.w.(pc := p)) }

  function ReaderAt(s: State, p: ReadPc): State { s.(r := s.r.(pc := p)) }

  predicate Shaped(s: State) {
    s.cap > 0 && |s.buffer| == s.cap && s.r.head < 2 * s.cap && s.w.tail < 2 * s.cap
  }

  /** The size of the next piece `fill` asks its source for. */
  function FillSize(s: State): int {
    Min(CHUNK, Min(s.w.zeroed * 2 + 4096,
      Min(s.cap - Distance(s.cap, s.w.head, s.w.tail), s.cap - RealIndex(s.cap, s.w.tail))))
  }

  function DrainSize(s: State): int {
    Min(CHUNK, Min(Distance(s.cap, s.r.head, s.r.tail), s.cap - RealIndex(s.cap, s.r.head)))
  }

  /** `Writer::fill` and `Drop for Writer`. A step out of bounds leaves the state as it
      is; `FillInBounds` shows that there is none. */
  function DoWriter(s: State, c: Choice): State
    requires Shaped(s)
  {
    match s.w.pc
    case WIdle =>
      if c.k == 0 then WriterAt(s.(closed := On), WGone)
      else if s.closed.On? then s
      else WriterAt(s, if Distance(s.cap, s.w.head, s.w.tail) == s.cap then WLoad(Off) else WEnter)
    case WLoad(again) =>
      WriterAt(s.(headSeen := s.headAt, w := s.w.(head := s.head)),
               if Distance(s.cap, s.head, s.w.tail) != s.cap then WEnter
               else if again.Off? then WLoad(On) else WClosed)
    case WClosed => WriterAt(s, WIdle)
    case WEnter => WriterAt(s, if c.k == 0 then WIdle else WLoop)
    case WLoop =>
      var n := FillSize(s);
      var to := RealIndex(s.cap, s.w.tail) + n;
      if n < 0 || to > s.cap then s
      else if s.w.zeroed < to then
        s.(buffer := Zeroed(s.buffer, s.w.zeroed, to), w := s.w.(zeroed := to, pc := WRead(n)))
      else WriterAt(s, WRead(n))
    case WRead(n) =>
      var from := RealIndex(s.cap, s.w.tail);
      var bytes := c.bytes[..Min(n, |c.bytes|)];
      if from + n > s.cap then s
      else WriterAt(s.(buffer := Written(s.buffer, from, bytes)), WStore(Min(c.k, |bytes|)))
    case WStore(n) =>
      var from := RealIndex(s.cap, s.w.tail);
      if n == 0 || s.closed.On? || from + n > s.cap then WriterAt(s, WIdle)
      else
        s.(taken := s.taken + BytesAt(s.buffer, from, n),
           w := s.w.(tail := Advance(s.cap, s.w.tail, n), pc := WPublish))
    case WPublish => WriterAt(s.(tail := s.w.tail, tailAt := |s.taken|), WLoop)
    case WGone => s
  }

  /** `Reader::drain` and `Drop for Reader`. */
  function DoReader(s: State, c: Choice): State
    requires Shaped(s)
  {
    match s.r.pc
    case RIdle =>
      if c.k == 0 then ReaderAt(s.(closed := On), RGone)
      else ReaderAt(s, if Distance(s.cap, s.r.head, s.r.tail) == 0 then RLoad(Off) else REnter)
    case RLoad(again) =>
      ReaderAt(s.(tailSeen := s.tailAt, r := s.r.(tail := s.tail)),
               if Distance(s.cap, s.r.head, s.tail) != 0 then REnter
               else if again.Off? then RLoad(On) else RClosed)
    case RClosed => ReaderAt(s, if s.closed.On? then REnd else RIdle)
    case REnd => ReaderAt(s, RIdle)
    case REnter => ReaderAt(s, if c.k == 0 then RIdle else RLoop)
    case RLoop =>
      var from := RealIndex(s.cap, s.r.head);
      var n := Min(c.k, DrainSize(s));
      if n <= 0 || from + n > s.cap then ReaderAt(s, RIdle)
      else
        s.(delivered := s.delivered + BytesAt(s.buffer, from, n),
           r := s.r.(head := Advance(s.cap, s.r.head, n), pc := RPublish))
    case RPublish => ReaderAt(s.(head := s.r.head, headAt := |s.delivered|), RLoop)
    case RGone => s
  }

  /** `Off` moves the writer, `On` the reader. */
  function Move(s: State, move: (Flag, Choice)): (t: State)
    requires Shaped(s)
    ensures Shaped(t) && t.cap == s.cap
  {
    if move.0.Off? then DoWriter(s, move.1) else DoReader(s, move.1)
  }

  function Execute(s: State, moves: seq<(Flag, Choice)>): (t: State)
    requires Shaped(s)
    ensures Shaped(t) && t.cap == s.cap
    decreases |moves|
  {
    if moves == [] then s else Execute(Move(s, moves[0]), moves[1..])
  }

  predicate Init(s: State) {
    && s.cap > 0 && |s.buffer| == s.cap && (forall i :: 0 <= i < s.cap ==> s.buffer[i] == None)
    && s == State(s.cap, 0, 0, Off, s.buffer, Reader(0, 0, RIdle), Writer(0, 0, 0, WIdle), [], [], 0, 0, 0, 0)
  }
}
