/** What an event's listener list means, as a value: the states of the listeners in
    the order they were inserted, and how many of them have been notified. */
module EventSpec {
  import opened Tally

  /** The largest `usize`, published when nobody is left to notify. */
  const MAX: nat := 0xFFFF_FFFF_FFFF_FFFF

  datatype State = Created | Notified(additional: Flag) | Polling(waker: nat) | Waiting(thread: nat)

  datatype Value = Value(states: seq<State>, notified: nat)

  /** The notified listeners are exactly the first `notified` ones. */
  predicate Sound(v: Value) {
    && v.notified <= |v.states| <= MAX
    && forall i :: 0 <= i < |v.states| ==> (v.states[i].Notified? <==> i < v.notified)
  }

  function Max(a: nat, b: nat): nat { if a < b then b else a }

  function Fill(k: nat, s: State): (r: seq<State>)
    ensures |r| == k && forall i :: 0 <= i < k ==> r[i] == s
  {
    if k == 0 then [] else Fill(k - 1, s) + [s]
  }

  /** The listeners from `from` up to `to` become notified. */
  function Marked(states: seq<State>, from: nat, to: nat, how: Flag): (r: seq<State>)
    requires from <= to <= |states|
    ensures |r| == |states|
    ensures forall i :: 0 <= i < |r| ==> r[i] == if from <= i < to then Notified(how) else states[i]
  {
    states[..from] + Fill(to - from, Notified(how)) + states[to..]
  }

  /** A task woken or a thread unparked. */
  datatype Wake = WakeTask(waker: nat) | Unpark(thread: nat)

  function WakeOf(s: State): seq<Wake> {
    match s
    case Polling(w) => [WakeTask(w)]
    case Waiting(t) => [Unpark(t)]
    case _ => []
  }

  /** The wake-ups owed to a run of listeners, first listener first. */
  function Wakes(states: seq<State>): seq<Wake> {
    if states == [] then [] else Wakes(states[..|states| - 1]) + WakeOf(states[|states| - 1])
  }

  // ---------------------------------------------------------------- the operations

  function Inserted(v: Value): Value { v.(states := v.states + [Created]) }

  function Removed(v: Value, k: nat): Value
    requires Sound(v) && k < |v.states|
  {
    Value(Cut(v.states, k), if k < v.notified then v.notified - 1 else v.notified)
  }

  /** `notify(n)`: at least `n` listeners are notified, as far as there are any. */
  function NotifyAtLeast(v: Value, n: nat): Value
    requires Sound(v)
  {
    var to := Max(v.notified, Min(n, |v.states|));
    Value(Marked(v.states, v.notified, to, Off), to)
  }

  /** `notify_additional(n)`: `n` more listeners are notified, as far as there are any. */
  function NotifyMore(v: Value, n: nat): Value
    requires Sound(v)
  {
    var to := Min(v.notified + n, |v.states|);
    Value(Marked(v.states, v.notified, to, On), to)
  }

  /** What becomes of the notification of a listener removed in state `s`. */
  function HandedOn(v: Value, s: State): Value
    requires Sound(v)
  {
    match s
    case Notified(On) => NotifyMore(v, 1)
    case Notified(Off) => NotifyAtLeast(v, 1)
    case _ => v
  }

  /** `Drop for EventListener`: a notification that was not consumed is handed on. */
  function Dropped(v: Value, k: nat): Value
    requires Sound(v) && k < |v.states|
  {
    RemoveSound(v, k);
    HandedOn(Removed(v, k), v.states[k])
  }

  /** What the guard publishes when it releases the list's lock. */
  function Published(v: Value): nat { if v.notified < |v.states| then v.notified else MAX }

  // ---------------------------------------------------------------- soundness

  lemma RemoveSound(v: Value, k: nat)
    requires Sound(v) && k < |v.states|
    ensures Sound(Removed(v, k)) && |Removed(v, k).states| == |v.states| - 1
  {
    var r := Removed(v, k);
    assert forall i :: 0 <= i < |r.states| ==> r.states[i] == v.states[if i < k then i else i + 1];
  }

  lemma NotifySound(v: Value, n: nat)
    requires Sound(v)
    ensures Sound(NotifyAtLeast(v, n)) && Sound(NotifyMore(v, n))
  {
  }

  /** Skipping the lock when the published counter is at least `n` is right, and the
      lock is never taken in vain: `notify(n)` changes nothing exactly in that case. */
  lemma FastPath(v: Value, n: nat)
    requires Sound(v) && n <= MAX
    ensures Published(v) >= n <==> NotifyAtLeast(v, n) == v
  {
    if Published(v) >= n {
      assert Marked(v.states, v.notified, v.notified, Off) == v.states;
    }
  }

  lemma FastPathAdditional(v: Value, n: nat)
    requires Sound(v)
    ensures Published(v) >= MAX || n == 0 <==> NotifyMore(v, n) == v
  {
    if Published(v) >= MAX || n == 0 {
      assert Marked(v.states, v.notified, v.notified, On) == v.states;
    }
  }

  // ---------------------------------------------------------------- laws

  /** Notifying twice is notifying the larger number once: `notify` does not add up. */
  lemma NotifyAbsorbs(v: Value, n: nat, m: nat)
    requires Sound(v)
    ensures Sound(NotifyAtLeast(v, n))
    ensures NotifyAtLeast(NotifyAtLeast(v, n), m) == NotifyAtLeast(v, Max(n, m))
  {
    NotifySound(v, n);
    assert NotifyAtLeast(NotifyAtLeast(v, n), m).states == NotifyAtLeast(v, Max(n, m)).states;
  }

  /** Additional notifications do add up. */
  lemma NotifyMoreAdds(v: Value, n: nat, m: nat)
    requires Sound(v)
    ensures Sound(NotifyMore(v, n))
    ensures NotifyMore(NotifyMore(v, n), m) == NotifyMore(v, n + m)
  {
    NotifySound(v, n);
    assert NotifyMore(NotifyMore(v, n), m).states == NotifyMore(v, n + m).states;
  }

  /** Dropping a listener passes its notification on: an additional one always goes to
      the next listener if there is one; a plain one keeps somebody notified. */
  lemma DropHandsOn(v: Value, k: nat)
    requires Sound(v) && k < |v.states|
    ensures Sound(Dropped(v, k)) && |Dropped(v, k).states| == |v.states| - 1
    ensures v.states[k] == Notified(On) ==> Dropped(v, k).notified == Min(v.notified, |v.states| - 1)
    ensures v.states[k] == Notified(Off) ==>
              Dropped(v, k).notified == Max(v.notified - 1, Min(1, |v.states| - 1))
    ensures !v.states[k].Notified? ==> Dropped(v, k).notified == v.notified
    ensures v.notified > 0 && |v.states| > 1 ==> Dropped(v, k).notified > 0
  {
    RemoveSound(v, k);
    NotifySound(Removed(v, k), 1);
  }

  // ---------------------------------------------------------------- whole runs

  /** One locked call; `Repoll` stands for a poll that stays pending, `Await` for the start
      of a wait that has to park. */
  datatype Call =
    | Listen
    | Drop(k: nat)
    | Discard(k: nat)
    | Notify(n: nat)
    | NotifyAdditional(n: nat)
    | Repoll(k: nat, waker: nat)
    | Await(k: nat, thread: nat)

  function Apply(v: Value, c: Call): Value
    requires Sound(v)
  {
    match c
    case Listen => if |v.states| < MAX then Inserted(v) else v
    case Drop(k) => if k < |v.states| then Dropped(v, k) else v
    case Discard(k) => if k < |v.states| then Removed(v, k) else v
    case Notify(n) => NotifyAtLeast(v, n)
    case NotifyAdditional(n) => NotifyMore(v, n)
    case Repoll(k, w) =>
      if v.notified <= k < |v.states| then v.(states := v.states[k := Polling(w)]) else v
    case Await(k, t) =>
      if v.notified <= k < |v.states| then v.(states := v.states[k := Waiting(t)]) else v
  }

  lemma ApplySound(v: Value, c: Call)
    requires Sound(v)
    ensures Sound(Apply(v, c))
  {
    match c
    case Drop(k) => if k < |v.states| { DropHandsOn(v, k); }
    case Discard(k) => if k < |v.states| { RemoveSound(v, k); }
    case Notify(n) => NotifySound(v, n);
    case NotifyAdditional(n) => NotifySound(v, n);
    case _ =>
  }

  /** From any sound list every run of calls meets and leaves a notified prefix. */
  function Run(v: Value, calls: seq<Call>): (r: Value)
    requires Sound(v)
    ensures Sound(r)
    decreases |calls|
  {
    if calls == [] then v else
      ApplySound(v, calls[0]);
      Run(Apply(v, calls[0]), calls[1..])
  }

  /** A notification is not lost: while every listener leaves by dropping, somebody
      stays notified for as long as anybody listens. */
  lemma {:induction false} NotificationSurvives(v: Value, calls: seq<Call>)
    requires Sound(v) && v.notified > 0
    requires forall i :: 0 <= i < |calls| ==> !calls[i].Discard?
    requires forall i :: 0 <= i <= |calls| ==> Run(v, calls[..i]).states != []
    ensures Run(v, calls).notified > 0
    decreases |calls|
  {
    if calls != [] {
      var w := Apply(v, calls[0]);
      ApplySound(v, calls[0]);
      assert calls[..1] == [calls[0]] && [calls[0]][1..] == [];
      assert Run(v, calls[..1]) == Run(w, []);
      if calls[0].Drop? && calls[0].k < |v.states| {
        DropHandsOn(v, calls[0].k);
      }
      forall i | 0 <= i <= |calls[1..]| ensures Run(w, calls[1..][..i]).states != [] {
        assert calls[..i + 1][1..] == calls[1..][..i];
        assert Run(v, calls[..i + 1]).states != [];
      }
      NotificationSurvives(w, calls[1..]);
    }
  }

  // ---------------------------------------------------------------- who is woken

  /** One wake-up for each listener that polls or waits, in the order of the list, and none
      for the others. */
  lemma OneWakeEach(states: seq<State>, w: nat, t: nat, how: Flag)
    ensures Wakes([]) == []
    ensures Wakes(states + [Polling(w)]) == Wakes(states) + [WakeTask(w)]
    ensures Wakes(states + [Waiting(t)]) == Wakes(states) + [Unpark(t)]
    ensures Wakes(states + [Created]) == Wakes(states) && Wakes(states + [Notified(how)]) == Wakes(states)
  {
    forall s: State ensures Wakes(states + [s]) == Wakes(states) + WakeOf(s) {
      assert (states + [s])[..|states|] == states;
    }
  }

  /** What a listener in state `s` needs to go on. */
  predicate Wants(s: State, w: Wake) {
    match s
    case Polling(x) => w == WakeTask(x)
    case Waiting(t) => w == Unpark(t)
    case _ => false
  }

  lemma {:induction false} WakesReach(states: seq<State>, i: nat, w: Wake)
    requires i < |states| && Wants(states[i], w)
    ensures w in Wakes(states)
    decreases |states|
  {
    var n := |states| - 1;
    if i < n {
      WakesReach(states[..n], i, w);
    } else {
      assert w in WakeOf(states[n]);
    }
  }

  lemma {:induction false} WakesComeFrom(states: seq<State>, w: Wake) returns (i: nat)
    requires w in Wakes(states)
    ensures i < |states| && Wants(states[i], w)
    decreases |states|
  {
    i := |states| - 1;
    if w !in WakeOf(states[i]) {
      i := WakesComeFrom(states[..i], w);
    }
  }

  /** `notify` marks the first listeners that are not, until `n` are or all are. */
  lemma NotifyMarks(v: Value, n: nat)
    requires Sound(v)
    ensures var r := NotifyAtLeast(v, n);
            && v.notified <= r.notified <= |r.states| == |v.states|
            && (r.notified >= n || r.notified == |v.states|) && (r.notified == v.notified || r.notified <= n)
            && forall i :: 0 <= i < |v.states| ==>
                 r.states[i] == if v.notified <= i < r.notified then Notified(Off) else v.states[i]
  {
  }

  lemma NotifyMoreMarks(v: Value, n: nat)
    requires Sound(v)
    ensures var r := NotifyMore(v, n);
            && v.notified <= r.notified <= |r.states| == |v.states|
            && (r.notified == v.notified + n || (r.notified == |v.states| && r.notified <= v.notified + n))
            && forall i :: 0 <= i < |v.states| ==>
                 r.states[i] == if v.notified <= i < r.notified then Notified(On) else v.states[i]
  {
  }

  /** The list once a listener that leaves with this call has left. */
  function Remaining(v: Value, c: Call): Value
    requires Sound(v)
  {
    if (c.Drop? || c.Discard?) && c.k < |v.states| then Removed(v, c.k) else v
  }

  /** The listeners a call notifies, in the states it finds them in. */
  function NewlyNotified(v: Value, c: Call): seq<State>
    requires Sound(v)
  {
    var w := Remaining(v, c);
    var to := Apply(v, c).notified;
    if w.notified <= to <= |w.states| then w.states[w.notified..to] else []
  }

  /** The wake-ups a call sends. */
  function Sends(v: Value, c: Call): seq<Wake>
    requires Sound(v)
  {
    Wakes(NewlyNotified(v, c))
  }

  /** Where the `k`-th listener stands after a call, unless it is the one that leaves. */
  function Shift(v: Value, c: Call, k: nat): Option<nat> {
    if (c.Drop? || c.Discard?) && c.k < |v.states| then
      if k < c.k then Some(k) else if k == c.k then None else Some(k - 1)
    else Some(k)
  }

  predicate IsNotified(v: Value, k: nat) { k < |v.states| && v.states[k].Notified? }

  /** A call notifies the listeners from the first one not notified on. */
  lemma NotifiesNext(v: Value, c: Call)
    requires Sound(v)
    ensures var w, u := Remaining(v, c), Apply(v, c);
            Sound(w) && Sound(u) && w.notified <= u.notified && (!c.Listen? ==> |u.states| == |w.states|)
  {
    ApplySound(v, c);
    if (c.Drop? || c.Discard?) && c.k < |v.states| {
      RemoveSound(v, c.k);
    }
  }

  lemma ShiftedState(v: Value, c: Call, k: nat)
    requires Sound(v) && k < |v.states| && Shift(v, c, k).Some?
    ensures var j, w := Shift(v, c, k).value, Remaining(v, c); j < |w.states| && w.states[j] == v.states[k]
  {
  }

  lemma ShiftedBack(v: Value, c: Call, j: nat) returns (k: nat)
    requires Sound(v) && j < |Remaining(v, c).states|
    ensures k < |v.states| && Shift(v, c, k) == Some(j) && v.states[k] == Remaining(v, c).states[j]
  {
    k := if (c.Drop? || c.Discard?) && c.k < |v.states| && j >= c.k then j + 1 else j;
  }

  /** A listener that becomes notified gets the wake-up it wants. */
  lemma NotifiedIsWoken(v: Value, c: Call, k: nat, w: Wake)
    requires Sound(v) && k < |v.states| && !IsNotified(v, k) && Wants(v.states[k], w)
    requires Shift(v, c, k).Some? && IsNotified(Apply(v, c), Shift(v, c, k).value)
    ensures w in Sends(v, c)
  {
    NotifiesNext(v, c);
    ShiftedState(v, c, k);
    var marked := NewlyNotified(v, c);
    var j, from := Shift(v, c, k).value, Remaining(v, c).notified;
    assert from <= j < Apply(v, c).notified;
    WakesReach(marked, j - from, w);
  }

  /** The listeners a call notifies stand one after another, from the first not notified on. */
  lemma NewlyNotifiedAt(v: Value, c: Call, i: nat)
    requires Sound(v) && i < |NewlyNotified(v, c)|
    ensures var w, j := Remaining(v, c), Remaining(v, c).notified + i;
            && j < |w.states| && w.states[j] == NewlyNotified(v, c)[i] && !IsNotified(w, j)
            && IsNotified(Apply(v, c), j)
  {
    NotifiesNext(v, c);
  }

  /** And nobody else is woken: a wake-up goes to a listener that this call notifies. */
  lemma WokenIsNotified(v: Value, c: Call, w: Wake) returns (k: nat)
    requires Sound(v) && w in Sends(v, c)
    ensures k < |v.states| && !IsNotified(v, k) && Wants(v.states[k], w)
    ensures Shift(v, c, k).Some? && IsNotified(Apply(v, c), Shift(v, c, k).value)
  {
    var i := WakesComeFrom(NewlyNotified(v, c), w);
    NewlyNotifiedAt(v, c, i);
    k := ShiftedBack(v, c, Remaining(v, c).notified + i);
  }

  /** Somewhere in the run the listener at `k` is notified, and its wish at that moment is
      among the wake-ups sent. */
  ghost predicate WokenInRun(v: Value, calls: seq<Call>, k: nat)
    requires Sound(v) && k < |v.states|
    decreases |calls|
  {
    && calls != []
    && (ApplySound(v, calls[0]);
        var u := Apply(v, calls[0]);
        var at := Shift(v, calls[0], k);
        && at.Some? && at.value < |u.states|
        && (if IsNotified(u, at.value) then forall w :: Wants(v.states[k], w) ==> w in Sends(v, calls[0])
            else WokenInRun(u, calls[1..], at.value)))
  }

  /** Where the `k`-th listener stands at the end of a run, unless it has left. */
  function Follow(v: Value, calls: seq<Call>, k: nat): Option<nat>
    requires Sound(v)
    decreases |calls|
  {
    if calls == [] then Some(k)
    else if Shift(v, calls[0], k).None? then None
    else
      ApplySound(v, calls[0]);
      Follow(Apply(v, calls[0]), calls[1..], Shift(v, calls[0], k).value)
  }

  lemma ShiftStays(v: Value, c: Call, k: nat)
    requires Sound(v) && k < |v.states| && Shift(v, c, k).Some?
    ensures Sound(Apply(v, c)) && Shift(v, c, k).value < |Apply(v, c).states|
  {
    NotifiesNext(v, c);
    ShiftedState(v, c, k);
  }

  /** Over every run of calls: a listener found notified at the end has been sent the
      wake-up for the waker or thread it had registered last. */
  lemma {:induction false} NotifiedWasWoken(v: Value, calls: seq<Call>, k: nat)
    requires Sound(v) && k < |v.states| && !IsNotified(v, k)
    requires Follow(v, calls, k).Some? && IsNotified(Run(v, calls), Follow(v, calls, k).value)
    ensures WokenInRun(v, calls, k)
    decreases |calls|
  {
    if calls != [] {
      var u := Apply(v, calls[0]);
      var j := Shift(v, calls[0], k).value;
      ShiftStays(v, calls[0], k);
      if IsNotified(u, j) {
        forall w | Wants(v.states[k], w) ensures w in Sends(v, calls[0]) {
          NotifiedIsWoken(v, calls[0], k, w);
        }
      } else {
        NotifiedWasWoken(u, calls[1..], j);
      }
    }
  }
}
