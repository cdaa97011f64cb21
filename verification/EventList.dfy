/** The doubly linked listener list of platform/event/listener.rs, on the heap. */
module EventList {
  import opened Tally
  import opened EventSpec

  class Entry {
    var state: State
    var prev: Entry?
    var next: Entry?

    constructor (prev: Entry?)
      ensures state == Created && this.prev == prev && next == null
    {
      state := Created;
      this.prev := prev;
      next := null;
    }
  }

  /** The entry at position `i` of a chain, or null beyond either end. */
  ghost function Nth(es: seq<Entry>, i: int): Entry? { if 0 <= i < |es| then es[i] else null }

  /** Entry `i` of a chain points to its neighbours. */
  ghost predicate LinkAt(es: seq<Entry>, i: nat)
    requires i < |es|
    reads es`prev, es`next
  {
    es[i].prev == Nth(es, i - 1) && es[i].next == Nth(es, i + 1)
  }

  ghost predicate Chain(es: seq<Entry>)
    reads es`prev, es`next
  {
    Distinct(es) && forall i: nat :: i < |es| ==> LinkAt(es, i)
  }

  lemma CutFacts(es: seq<Entry>, k: nat, x: Entry, m: nat)
    requires Distinct(es) && k < |es| && m <= |es|
    ensures x in Cut(es, k) <==> x in es && x != es[k]
    ensures Nth(Cut(es, k), if k < m then m - 1 else m) == if m == k then Nth(es, k + 1) else Nth(es, m)
    ensures Nth(es, m) == es[k] <==> m == k
    ensures forall i :: 0 <= i < |Cut(es, k)| ==> Cut(es, k)[i] == es[if i < k then i else i + 1]
  {
    if x in es && x != es[k] {
      var j :| 0 <= j < |es| && es[j] == x;
      assert Cut(es, k)[if j < k then j else j - 1] == x;
    }
  }

  /** `Inner` with its locked `List` and the inline cache entry. `entries` is the chain
      from head to tail and `value` what it means. */
  class Inner {
    var published: nat
    var head: Entry?
    var tail: Entry?
    var start: Entry?
    var len: nat
    var notified: nat
    var cacheUsed: bool
    const cache: Entry
    ghost var entries: seq<Entry>
    ghost var value: Value

    /** Pointers form one doubly linked chain over distinct entries. */
    ghost predicate Linked()
      reads this`head, this`tail, this`entries, entries`prev, entries`next
    {
      Chain(entries) && head == Nth(entries, 0) && tail == Nth(entries, |entries| - 1)
    }

    /** States and counters are exact, and `start` is the first entry not notified. */
    ghost predicate Exact()
      reads this`start, this`len, this`notified, this`cacheUsed, this`entries, this`value, entries`state
    {
      && Sound(value) && |value.states| == |entries|
      && (forall i :: 0 <= i < |entries| ==> entries[i].state == value.states[i])
      && len == |entries| && notified == value.notified && start == Nth(entries, notified)
      && (cacheUsed <==> cache in entries)
    }

    ghost predicate Valid()
      reads this, entries
    {
      Linked() && Exact()
    }

    /** What holds whenever the list's lock is free. */
    ghost predicate Unlocked()
      reads this, entries
    {
      Valid() && published == Published(value)
    }

    constructor ()
      ensures Unlocked() && entries == [] && value == Value([], 0) && fresh(cache)
    {
      published := MAX;
      head, tail, start := null, null, null;
      len, notified, cacheUsed := 0, 0, false;
      cache := new Entry(null);
      entries := [];
      value := Value([], 0);
    }

    /** Makes a detached entry the last one of the chain. */
    method Append(e: Entry)
      requires Linked() && e !in entries && e.prev == tail && e.next == null
      modifies this`head, this`tail, this`entries, entries`next
      ensures Linked() && entries == old(entries) + [e]
    {
      var t := tail;
      tail := e;
      if t == null {
        head := e;
      } else {
        assert LinkAt(entries, |entries| - 1);
        t.next := e;
      }
      entries := entries + [e];
      forall i: nat | i < |entries| ensures LinkAt(entries, i) {
        if i < |entries| - 1 {
          assert old(LinkAt(entries, i));
        }
      }
    }

    /** A fresh entry behind the tail: the cache if it is free, else a new allocation. */
    method NewEntry() returns (e: Entry)
      requires Valid()
      modifies this`cacheUsed, cache
      ensures Linked() && e !in entries && e.prev == tail && e.next == null && e.state == Created
      ensures cacheUsed && (e == cache || cache in entries) && (fresh(e) || e == cache)
      ensures forall x :: x in entries ==> x.state == old(x.state)
    {
      if cacheUsed {
        e := new Entry(tail);
      } else {
        cacheUsed := true;
        cache.state, cache.prev, cache.next := Created, tail, null;
        e := cache;
      }
      forall i: nat | i < |entries| ensures LinkAt(entries, i) {
        assert old(LinkAt(entries, i));
      }
    }

    method Insert() returns (e: Entry)
      requires Valid() && len < MAX
      modifies this, entries, cache
      ensures Valid() && entries == old(entries) + [e] && value == Inserted(old(value))
      ensures published == old(published) && (fresh(e) || e == cache)
    {
      e := NewEntry();
      Append(e);
      Admit(e);
    }

    /** The bookkeeping of `insert` once the entry is linked. */
    method Admit(e: Entry)
      requires |entries| == |value.states| + 1 <= MAX && Sound(value) && entries[|value.states|] == e == tail
      requires forall i :: 0 <= i < |value.states| ==> entries[i].state == value.states[i]
      requires e.state == Created && len == |value.states| && notified == value.notified
      requires start == if notified < |value.states| then entries[notified] else null
      requires cacheUsed <==> cache in entries
      modifies this`start, this`len, this`value
      ensures Exact() && value == Inserted(old(value))
    {
      if start == null {
        start := tail;
      }
      len := len + 1;
      value := Inserted(value);
    }

    /** Takes an entry out of the chain. */
    method Unlink(e: Entry, ghost k: nat) returns (next: Entry?)
      requires Linked() && k < |entries| && entries[k] == e
      modifies this`head, this`tail, this`entries, entries`prev, entries`next
      ensures Linked() && entries == Cut(old(entries), k)
      ensures next == Nth(old(entries), k + 1) && e !in entries
    {
      assert LinkAt(entries, k);
      var prev := e.prev;
      next := e.next;
      if prev == null {
        head := next;
      } else {
        prev.next := next;
      }
      if next == null {
        tail := prev;
      } else {
        next.prev := prev;
      }
      ghost var was := entries;
      entries := Cut(entries, k);
      forall i: nat | i < |entries| ensures LinkAt(entries, i) {
        assert entries[i] == was[if i < k then i else i + 1];
        assert old(LinkAt(entries, if i < k then i else i + 1));
      }
    }

    /** Entry `k` is unlinked and `next` followed it; the rest of the list does not know yet. */
    ghost predicate Detached(e: Entry, next: Entry?, k: nat)
      reads this`start, this`len, this`notified, this`cacheUsed, this`entries, this`value, e`state, entries`state
    {
      && e !in entries && k <= |entries| && Sound(value) && |value.states| == |entries| + 1
      && (forall i :: 0 <= i < |entries| ==> entries[i].state == value.states[if i < k then i else i + 1])
      && e.state == value.states[k] && len == |entries| + 1 && notified == value.notified
      && (if start == e then notified == k && next == Nth(entries, k)
          else start == Nth(entries, if k < notified then notified - 1 else notified))
      && (if e == cache then cacheUsed else (cacheUsed <==> cache in entries))
    }

    /** The bookkeeping of `remove` once the entry is unlinked. */
    method Forget(e: Entry, next: Entry?, ghost k: nat) returns (state: State)
      requires Detached(e, next, k)
      modifies this`start, this`notified, this`len, this`cacheUsed, this`value, e`state
      ensures Exact() && state == old(value).states[k] && value == Removed(old(value), k)
    {
      if start == e {
        start := next;
      }
      state := e.state;
      if e == cache {
        cacheUsed := false;
        e.state := Created;
      }
      if state.Notified? {
        notified := notified - 1;
      }
      len := len - 1;
      RemoveSound(value, k);
      value := Removed(value, k);
    }

    method Settle(e: Entry, next: Entry?, ghost k: nat) returns (state: State)
      requires Linked() && Detached(e, next, k)
      modifies this`start, this`notified, this`len, this`cacheUsed, this`value, e`state
      ensures Valid() && state == old(value).states[k] && value == Removed(old(value), k)
    {
      state := Forget(e, next, k);
    }

    /** Unlinks an entry of a valid list: what is left to do is bookkeeping. */
    method Detach(e: Entry, ghost k: nat) returns (next: Entry?)
      requires Valid() && k < |entries| && entries[k] == e
      modifies this`head, this`tail, this`entries, entries`prev, entries`next
      ensures Linked() && Detached(e, next, k) && entries == Cut(old(entries), k)
    {
      CutFacts(entries, k, cache, notified);
      ghost var was := entries;
      next := Unlink(e, k);
      assert cache in entries <==> cache in was && cache != e;
      forall i | 0 <= i < |entries| ensures entries[i].state == value.states[if i < k then i else i + 1] {
        var j := if i < k then i else i + 1;
        assert entries[i] == was[j] && was[j].state == value.states[j];
      }
    }

    method Remove(e: Entry, ghost k: nat) returns (state: State)
      requires Valid() && k < |entries| && entries[k] == e
      modifies this, entries
      ensures Valid() && entries == Cut(old(entries), k) && published == old(published)
      ensures state == old(value).states[k] && value == Removed(old(value), k)
    {
      var next := Detach(e, k);
      state := Settle(e, next, k);
    }

    /** Notifies the entry at `start` and moves `start` on to `next`. */
    method MarkStart(e: Entry, next: Entry?, how: Flag)
      requires Exact() && Distinct(entries) && e == start && next == Nth(entries, notified + 1)
      modifies this`start, this`notified, this`value, e`state
      ensures Exact() && notified == old(notified) + 1
      ensures old(value.notified < |value.states|) && value == NextMarked(old(value), how)
    {
      NextIsSound(value, how);
      start := next;
      e.state := Notified(how);
      value := NextMarked(value, how);
      notified := notified + 1;
    }

    method NotifyStart(how: Flag) returns (wakes: seq<Wake>)
      requires Valid() && start != null
      modifies this`start, this`notified, this`value, entries`state
      ensures Valid() && notified == old(notified) + 1
      ensures old(value.notified < |value.states|) && value == NextMarked(old(value), how)
      ensures wakes == WakeOf(old(value).states[old(value).notified])
    {
      var e: Entry := start;
      assert LinkAt(entries, notified);
      wakes := WakeOf(e.state);
      MarkStart(e, e.next, how);
    }

    /** One round of the notify loops. */
    method NotifyNext(how: Flag, ghost was: Value, sent: seq<Wake>) returns (wakes: seq<Wake>)
      requires Valid() && start != null && Progress(was, value, how, sent)
      modifies this`start, this`notified, this`value, entries`state
      ensures Valid() && notified == old(notified) + 1 && Progress(was, value, how, wakes)
    {
      ghost var before := value;
      var w := NotifyStart(how);
      Continues(was, before, how, sent);
      wakes := sent + w;
    }

    /** The loop of both notify calls. The wake-ups go out in the order of the list. */
    method NotifyRounds(n: nat, how: Flag) returns (wakes: seq<Wake>)
      requires Valid()
      modifies this`start, this`notified, this`value, entries`state
      ensures Valid() && Progress(old(value), value, how, wakes)
      ensures notified == Min(old(notified) + n, |entries|)
    {
      ghost var was := value;
      NothingYet(was, how);
      wakes := [];
      var left: nat := n;
      while left > 0
        invariant entries == old(entries)
        invariant Valid() && left + notified == was.notified + n && Progress(was, value, how, wakes)
      {
        if start == null {
          break;
        }
        wakes := NotifyNext(how, was, wakes);
        left := left - 1;
      }
    }

    /** `List::notify`. */
    method Notify(n: nat) returns (wakes: seq<Wake>)
      requires Valid()
      modifies this`start, this`notified, this`value, entries`state
      ensures Valid() && value == NotifyAtLeast(old(value), n)
      ensures wakes == Wakes(old(value).states[old(notified)..notified])
    {
      wakes := [];
      if n <= notified {
        AlreadyEnough(value, n);
        return;
      }
      ghost var was := value;
      wakes := NotifyRounds(n - notified, Off);
      ReachedTarget(was, value, n, wakes);
    }

    /** `List::notify_additional`. */
    method NotifyAdditional(n: nat) returns (wakes: seq<Wake>)
      requires Valid()
      modifies this`start, this`notified, this`value, entries`state
      ensures Valid() && value == NotifyMore(old(value), n)
      ensures wakes == Wakes(old(value).states[old(notified)..notified])
    {
      ghost var was := value;
      wakes := NotifyRounds(n, On);
      ReachedMore(was, value, n, wakes);
    }

    /** `Drop for ListGuard`. */
    method Publish()
      requires Valid()
      modifies this`published
      ensures Unlocked()
    {
      published := if notified < len then notified else MAX;
    }

    // -------------------------------------------------------------- the public calls

    /** `Event::listen`. */
    method Listen() returns (e: Entry)
      requires Unlocked() && len < MAX
      modifies this, entries, cache
      ensures Unlocked() && entries == old(entries) + [e] && value == Inserted(old(value))
    {
      e := Insert();
      Publish();
    }

    /** `Event::notify`: with the fast path it still does exactly what the locked call does. */
    method NotifyEvent(n: nat) returns (wakes: seq<Wake>)
      requires Unlocked() && n <= MAX
      modifies this, entries`state
      ensures Unlocked() && entries == old(entries) && value == NotifyAtLeast(old(value), n)
      ensures wakes == Wakes(old(value).states[old(notified)..notified])
    {
      FastPath(value, n);
      wakes := [];
      if published < n {
        wakes := Notify(n);
        Publish();
      }
    }

    /** `Event::notify_additional`. */
    method NotifyEventAdditional(n: nat) returns (wakes: seq<Wake>)
      requires Unlocked()
      modifies this, entries`state
      ensures Unlocked() && entries == old(entries) && value == NotifyMore(old(value), n)
      ensures wakes == Wakes(old(value).states[old(notified)..notified])
    {
      FastPathAdditional(value, n);
      wakes := [];
      if published < MAX {
        wakes := NotifyAdditional(n);
        Publish();
      }
    }

    /** `EventListener::poll` on a listener that no thread waits on. */
    method Poll(e: Entry, ghost k: nat, waker: nat) returns (ready: bool)
      requires Unlocked() && k < |entries| && entries[k] == e && !e.state.Waiting?
      modifies this, entries
      ensures Unlocked() && ready == old(value).states[k].Notified?
      ensures ready ==> entries == Cut(old(entries), k) && value == Removed(old(value), k)
      ensures !ready ==> entries == old(entries)
      ensures !ready ==> value == old(value).(states := old(value).states[k := Polling(waker)])
    {
      ready := e.state.Notified?;
      if ready {
        var _ := Remove(e, k);
      } else {
        SetWaiter(e, k, Polling(waker));
      }
      Publish();
    }

    /** The first locked section of `EventListener::wait`. */
    method BeginWait(e: Entry, ghost k: nat, thread: nat) returns (ready: bool)
      requires Unlocked() && k < |entries| && entries[k] == e
      modifies this, entries
      ensures Unlocked() && ready == old(value).states[k].Notified?
      ensures ready ==> entries == Cut(old(entries), k) && value == Removed(old(value), k)
      ensures !ready ==> entries == old(entries)
      ensures !ready ==> value == old(value).(states := old(value).states[k := Waiting(thread)])
    {
      ready := e.state.Notified?;
      if ready {
        var _ := Remove(e, k);
      } else {
        SetWaiter(e, k, Waiting(thread));
      }
      Publish();
    }

    method SetWaiter(e: Entry, ghost k: nat, s: State)
      requires Valid() && k < |entries| && entries[k] == e && !e.state.Notified? && !s.Notified?
      modifies this`value, entries`state
      ensures Valid() && value == old(value).(states := old(value).states[k := s])
    {
      e.state := s;
      value := value.(states := value.states[k := s]);
    }

    /** `EventListener::discard`: reports whether a notification is thrown away. */
    method Discard(e: Entry, ghost k: nat) returns (wasNotified: bool)
      requires Unlocked() && k < |entries| && entries[k] == e
      modifies this, entries
      ensures Unlocked() && entries == Cut(old(entries), k) && value == Removed(old(value), k)
      ensures wasNotified == old(value).states[k].Notified?
    {
      var s := Remove(e, k);
      wasNotified := s.Notified?;
      Publish();
    }

    /** Hands on the notification of a listener that was removed in state `s`. */
    method PassOn(s: State) returns (wakes: seq<Wake>)
      requires Valid()
      modifies this`start, this`notified, this`value, entries`state
      ensures Valid() && value == HandedOn(old(value), s)
      ensures wakes == Wakes(old(value).states[old(notified)..notified])
    {
      NothingYet(value, Off);
      wakes := [];
      if s.Notified? {
        if s.additional.On? {
          wakes := NotifyAdditional(1);
        } else {
          wakes := Notify(1);
        }
      }
    }

    /** `Drop for EventListener`. */
    method DropListener(e: Entry, ghost k: nat) returns (wakes: seq<Wake>)
      requires Unlocked() && k < |entries| && entries[k] == e
      modifies this, entries
      ensures Unlocked() && entries == Cut(old(entries), k) && value == Dropped(old(value), k)
      ensures wakes == Wakes(Removed(old(value), k).states[Removed(old(value), k).notified..notified])
    {
      RemoveSound(value, k);
      var s := Remove(e, k);
      wakes := PassOn(s);
      Publish();
    }
  }

  /** The first listener not notified is marked. */
  ghost function NextMarked(v: Value, how: Flag): Value
    requires v.notified < |v.states|
  {
    Value(Marked(v.states, v.notified, v.notified + 1, how), v.notified + 1)
  }

  lemma NextIsSound(v: Value, how: Flag)
    requires Sound(v) && v.notified < |v.states|
    ensures Sound(NextMarked(v, how))
  {
  }

  /** The list once all listeners up to `m` are marked. */
  ghost function MarkedTo(was: Value, m: nat, how: Flag): Value
    requires was.notified <= m <= |was.states|
  {
    Value(Marked(was.states, was.notified, m, how), m)
  }

  /** The wake-ups sent to the listeners up to `m`. */
  ghost function Sent(was: Value, m: nat): seq<Wake>
    requires was.notified <= m <= |was.states|
  {
    Wakes(was.states[was.notified..m])
  }

  /** Listeners from `was.notified` to `now.notified` are marked and their wake-ups sent. */
  ghost predicate Progress(was: Value, now: Value, how: Flag, wakes: seq<Wake>) {
    && was.notified <= now.notified <= |was.states|
    && now == MarkedTo(was, now.notified, how)
    && wakes == Sent(was, now.notified)
  }

  lemma NothingYet(v: Value, how: Flag)
    requires Sound(v)
    ensures Progress(v, v, how, [])
  {
    assert v.states == Marked(v.states, v.notified, v.notified, how);
  }

  lemma AlreadyEnough(v: Value, n: nat)
    requires Sound(v) && n <= v.notified
    ensures NotifyAtLeast(v, n) == v && Wakes(v.states[v.notified..v.notified]) == []
  {
    NothingYet(v, Off);
  }

  lemma ReachedTarget(was: Value, now: Value, n: nat, wakes: seq<Wake>)
    requires Sound(was) && Progress(was, now, Off, wakes) && was.notified <= now.notified <= n
    requires now.notified == n || now.notified == |was.states|
    ensures now == NotifyAtLeast(was, n)
  {
  }

  lemma ReachedMore(was: Value, now: Value, n: nat, wakes: seq<Wake>)
    requires Sound(was) && Progress(was, now, On, wakes) && now.notified <= was.notified + n
    requires now.notified == was.notified + n || now.notified == |was.states|
    ensures now == NotifyMore(was, n)
  {
  }

  /** One more listener marked and its wake-up sent. */
  lemma Continues(was: Value, now: Value, how: Flag, wakes: seq<Wake>)
    requires Progress(was, now, how, wakes) && now.notified < |was.states|
    ensures now.notified < |now.states|
    ensures Progress(was, NextMarked(now, how), how, wakes + WakeOf(now.states[now.notified]))
  {
    MarkedNext(was, now.notified, how);
    WakesNext(was, now.notified);
  }

  lemma MarkedNext(was: Value, m: nat, how: Flag)
    requires was.notified <= m < |was.states|
    ensures var v := MarkedTo(was, m, how);
            && |v.states| == |was.states| && v.states[m] == was.states[m]
            && NextMarked(v, how) == MarkedTo(was, m + 1, how)
  {
    var v := MarkedTo(was, m, how);
    assert NextMarked(v, how).states == MarkedTo(was, m + 1, how).states;
  }

  lemma WakesNext(v: Value, m: nat)
    requires v.notified <= m < |v.states|
    ensures Sent(v, m + 1) == Sent(v, m) + WakeOf(v.states[m])
  {
    var s := v.states[v.notified..m + 1];
    assert s[..|s| - 1] == v.states[v.notified..m];
  }
}
