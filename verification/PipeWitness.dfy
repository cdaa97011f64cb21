/** A run of the byte pipe in which `drain` answers 0 before the last byte. */
module PipeWitness {
  import opened Tally
  import opened Pipe

  lemma {:induction false} Snoc(s: State, moves: seq<(Flag, Choice)>, move: (Flag, Choice))
    requires Shaped(s)
    ensures Execute(s, moves + [move]) == Move(Execute(s, moves), move)
    decreases |moves|
  {
    if moves == [] {
      assert [move][1..] == [];
    } else {
      assert (moves + [move])[1..] == moves[1..] + [move];
      Snoc(Move(s, moves[0]), moves[1..], move);
    }
  }

  /** Appends one move to a run. */
  lemma Then(s: State, moves: seq<(Flag, Choice)>, move: (Flag, Choice)) returns (longer: seq<(Flag, Choice)>)
    requires Shaped(s)
    ensures Execute(s, longer) == Move(Execute(s, moves), move)
  {
    Snoc(s, moves, move);
    longer := moves + [move];
  }

  function Go(): Choice { Choice(1, [7]) }

  /** A pipe of capacity one, with the reader at `r` and the writer at `w`, before and
      after the byte 7 went in. */
  function Before(r: ReadPc, w: WritePc, zeroed: nat, buffer: Buffer): State {
    State(1, 0, 0, Off, buffer, Reader(0, 0, r), Writer(0, 0, zeroed, w), [], [], 0, 0, 0, 0)
  }

  function AfterByte(tail: nat, closed: Flag, w: WritePc, tailAt: nat): State {
    State(1, 0, tail, closed, [Some(7)], Reader(0, 0, RClosed), Writer(0, 1, 1, w), [7], [], 0, tailAt, 0, 0)
  }

  /** The reader finds the pipe empty and has yet to look whether it is closed. */
  lemma ReaderLooks() returns (moves: seq<(Flag, Choice)>)
    ensures Execute(Before(RIdle, WIdle, 0, [None]), moves) == Before(RClosed, WIdle, 0, [None])
  {
    var s := Before(RIdle, WIdle, 0, [None]);
    moves := Then(s, [], (On, Go()));
    assert Execute(s, moves) == Before(RLoad(Off), WIdle, 0, [None]);
    moves := Then(s, moves, (On, Go()));
    assert Execute(s, moves) == Before(RLoad(On), WIdle, 0, [None]);
    moves := Then(s, moves, (On, Go()));
  }

  lemma Zeroes()
    ensures Move(Before(RClosed, WLoop, 0, [None]), (Off, Go())) == Before(RClosed, WRead(1), 1, [Some(0)])
  {
    assert Zeroed([None], 0, 1) == [Some(0)];
  }

  lemma Reads()
    ensures Move(Before(RClosed, WRead(1), 1, [Some(0)]), (Off, Go())) == Before(RClosed, WStore(1), 1, [Some(7)])
  {
    assert [7][..1] == [7];
    assert Written([Some(0)], 0, [7]) == [Some(7)];
  }

  lemma Stores()
    ensures Move(Before(RClosed, WStore(1), 1, [Some(7)]), (Off, Go())) == AfterByte(0, Off, WPublish, 0)
  {
    assert BytesAt([Some(7)], 0, 1) == [7];
  }

  /** The writer takes in one byte. */
  lemma WriterFills() returns (moves: seq<(Flag, Choice)>)
    ensures Execute(Before(RIdle, WIdle, 0, [None]), moves) == AfterByte(0, Off, WPublish, 0)
  {
    var s := Before(RIdle, WIdle, 0, [None]);
    moves := ReaderLooks();
    moves := Then(s, moves, (Off, Go()));
    assert Execute(s, moves) == Before(RClosed, WEnter, 0, [None]);
    moves := Then(s, moves, (Off, Go()));
    assert Execute(s, moves) == Before(RClosed, WLoop, 0, [None]);
    Zeroes();
    moves := Then(s, moves, (Off, Go()));
    Reads();
    moves := Then(s, moves, (Off, Go()));
    Stores();
    moves := Then(s, moves, (Off, Go()));
  }

  lemma FindsFull()
    ensures Move(AfterByte(1, Off, WLoop, 1), (Off, Go())) == AfterByte(1, Off, WRead(0), 1)
  {
  }

  lemma ReadsNothing()
    ensures Move(AfterByte(1, Off, WRead(0), 1), (Off, Choice(0, []))) == AfterByte(1, Off, WStore(0), 1)
  {
  }

  /** It publishes the byte, finds the pipe full, and goes away. */
  lemma WriterCloses() returns (moves: seq<(Flag, Choice)>)
    ensures Execute(Before(RIdle, WIdle, 0, [None]), moves) == AfterByte(1, On, WGone, 1)
  {
    var s := Before(RIdle, WIdle, 0, [None]);
    moves := WriterFills();
    moves := Then(s, moves, (Off, Go()));
    assert Execute(s, moves) == AfterByte(1, Off, WLoop, 1);
    FindsFull();
    moves := Then(s, moves, (Off, Go()));
    ReadsNothing();
    moves := Then(s, moves, (Off, Choice(0, [])));
    moves := Then(s, moves, (Off, Go()));
    assert Execute(s, moves) == AfterByte(1, Off, WIdle, 1);
    moves := Then(s, moves, (Off, Choice(0, [])));
  }

  /** The reader has loaded the tail before the byte and loads `closed` after it: it
      answers 0 although a published byte was not delivered. */
  lemma EndMayComeEarly() returns (s: State, moves: seq<(Flag, Choice)>)
    ensures Init(s)
    ensures var t := Execute(s, moves); t.r.pc == REnd && t.taken == [7] && t.tailAt == 1 && t.delivered == []
  {
    s := Before(RIdle, WIdle, 0, [None]);
    moves := WriterCloses();
    moves := Then(s, moves, (On, Go()));
  }
}
