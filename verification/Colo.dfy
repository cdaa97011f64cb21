/** The slab of utils/colo.rs: values in numbered slots, vacant slots chained into a free
    list that starts at `head` and ends in `!0`. */
module Colo {
  import opened Tally

  /** `!0`, the end of the free list. */
  const END: nat := 0xFFFF_FFFF_FFFF_FFFF

  datatype Slot<T> = Vacant(next: nat) | Occupied(value: T)

  /** The entry of the free list at position `i`, or its end. */
  function Link(free: seq<nat>, i: nat): nat { if i < |free| then free[i] else END }

  /** Slot `free[i]` is vacant and points to the next entry. */
  predicate LinkAt<T>(slots: seq<Slot<T>>, free: seq<nat>, i: nat)
    requires i < |free|
  {
    free[i] < |slots| && slots[free[i]] == Vacant(Link(free, i + 1))
  }

  /** The list `free` is what one finds by following the vacant slots from `head`, and
      it visits each vacant slot exactly once. */
  ghost predicate FreeList<T>(slots: seq<Slot<T>>, head: nat, free: seq<nat>) {
    && |slots| < END && head == Link(free, 0) && Distinct(free)
    && (forall i: nat :: i < |free| ==> LinkAt(slots, free, i))
    && (forall k: nat :: k < |slots| ==> (slots[k].Vacant? <==> k in free))
  }

  /** The finite map a slab stands for. */
  ghost function Contents<T>(slots: seq<Slot<T>>): map<nat, T> {
    map k: nat | k < |slots| && slots[k].Occupied? :: slots[k].value
  }

  // ---------------------------------------------------------------- free list steps

  lemma FreeListPop<T>(slots: seq<Slot<T>>, free: seq<nat>, x: T)
    requires free != [] && FreeList(slots, free[0], free)
    ensures free[0] < |slots| && slots[free[0]] == Vacant(Link(free, 1))
    ensures FreeList(slots[free[0] := Occupied(x)], Link(free, 1), free[1..])
    ensures Contents(slots[free[0] := Occupied(x)]) == Contents(slots)[free[0] := x]
  {
    assert LinkAt(slots, free, 0);
    var slots' := slots[free[0] := Occupied(x)];
    forall i: nat | i < |free[1..]| ensures LinkAt(slots', free[1..], i) {
      assert LinkAt(slots, free, i + 1);
    }
    forall k: nat | k < |slots'| ensures slots'[k].Vacant? <==> k in free[1..] {
      assert k in free <==> k == free[0] || k in free[1..];
    }
  }

  lemma FreeListPush<T>(slots: seq<Slot<T>>, head: nat, free: seq<nat>, k: nat)
    requires FreeList(slots, head, free) && k < |slots| && slots[k].Occupied?
    ensures FreeList(slots[k := Vacant(head)], k, [k] + free)
    ensures Contents(slots[k := Vacant(head)]) == Contents(slots) - {k}
  {
    var slots' := slots[k := Vacant(head)];
    var free' := [k] + free;
    assert k !in free;
    forall i: nat | i < |free'| ensures LinkAt(slots', free', i) {
      if i > 0 {
        assert LinkAt(slots, free, i - 1);
      }
    }
  }

  lemma FreeListGrow<T>(slots: seq<Slot<T>>, x: T)
    requires FreeList(slots, END, []) && |slots| + 1 < END
    ensures FreeList(slots + [Occupied(x)], END, [])
    ensures Contents(slots + [Occupied(x)]) == Contents(slots)[|slots| := x]
  {
  }

  /** A list cannot start at its end mark unless it is empty. */
  lemma EndIsEmpty<T>(slots: seq<Slot<T>>, head: nat, free: seq<nat>)
    requires FreeList(slots, head, free)
    ensures head == END <==> free == []
    ensures head != END ==> free != [] && head == free[0]
  {
    if free != [] {
      assert LinkAt(slots, free, 0);
    }
  }

  /** Overwriting an occupied slot leaves the free list alone. */
  lemma FreeListKeep<T>(slots: seq<Slot<T>>, head: nat, free: seq<nat>, k: nat, x: T)
    requires FreeList(slots, head, free) && k < |slots| && slots[k].Occupied?
    ensures FreeList(slots[k := Occupied(x)], head, free)
    ensures Contents(slots[k := Occupied(x)]) == Contents(slots)[k := x]
  {
    assert k !in free;
    var slots' := slots[k := Occupied(x)];
    forall i: nat | i < |free| ensures LinkAt(slots', free, i) {
      assert LinkAt(slots, free, i);
    }
  }

  ghost function Below(n: nat): (r: set<nat>)
    ensures |r| == n && forall k: nat :: k in r <==> k < n
  {
    if n == 0 then {} else Below(n - 1) + {n - 1}
  }

  ghost function Elements(s: seq<nat>): set<nat> { set i | 0 <= i < |s| :: s[i] }

  lemma {:induction false} ElementsSize(s: seq<nat>)
    requires Distinct(s)
    ensures |Elements(s)| == |s|
  {
    if s != [] {
      var n := |s| - 1;
      ElementsSize(s[..n]);
      assert Elements(s) == Elements(s[..n]) + {s[n]};
      assert s[n] !in Elements(s[..n]);
    }
  }

  lemma FreeIsVacant<T>(slots: seq<Slot<T>>, head: nat, free: seq<nat>, k: nat)
    requires FreeList(slots, head, free)
    ensures k in Elements(free) <==> k < |slots| && slots[k].Vacant?
  {
    if k in Elements(free) {
      var i: nat :| i < |free| && free[i] == k;
      assert LinkAt(slots, free, i);
    }
    assert k in free <==> k in Elements(free);
  }

  /** Occupied and free slots make up the slab: `len` counts the values. */
  lemma LenCounts<T>(slots: seq<Slot<T>>, head: nat, free: seq<nat>)
    requires FreeList(slots, head, free)
    ensures |Contents(slots)| + |free| == |slots|
  {
    ElementsSize(free);
    var keys, vacant := Contents(slots).Keys, Elements(free);
    forall k: nat ensures k in Below(|slots|) <==> k in keys || k in vacant {
      FreeIsVacant(slots, head, free, k);
    }
    assert keys !! vacant by {
      forall k | k in vacant ensures k !in keys {
        FreeIsVacant(slots, head, free, k);
      }
    }
    assert keys + vacant == Below(|slots|);
    assert |keys| == |Contents(slots)|;
  }

  // ---------------------------------------------------------------- the class

  /** What a stateful closure says about one entry: its next state, whether to keep the
      entry, and what it has turned the value into. */
  datatype Verdict<S, T> = Verdict(state: S, keep: bool, value: T)

  /** The map and the closure's state after the keys from `i` up to `n` have been visited,
      each live key once and in ascending order. */
  ghost function Visited<S, T>(m: map<nat, T>, i: nat, n: nat, st: S, f: (S, nat, T) -> Verdict<S, T>): (map<nat, T>, S)
    requires i <= n
    decreases n - i
  {
    if i == n then (m, st)
    else if i !in m then Visited(m, i + 1, n, st, f)
    else
      var v := f(st, i, m[i]);
      Visited(if v.keep then m[i := v.value] else m - {i}, i + 1, n, v.state, f)
  }

  /** For a closure without state, visiting filters and maps: every entry is kept exactly
      if the closure keeps it, as the closure left it. */
  lemma {:induction false} VisitedStateless<S, T>(
    m: map<nat, T>, i: nat, n: nat, st: S, f: (S, nat, T) -> Verdict<S, T>)
    requires i <= n && forall k, x :: f(st, k, x).state == st
    ensures var r := Visited(m, i, n, st, f).0;
            && (forall k :: k in r ==> k in m)
            && (forall k :: k in m && !(i <= k < n) ==> k in r && r[k] == m[k])
            && (forall k :: k in m && i <= k < n ==> (k in r <==> f(st, k, m[k]).keep))
            && (forall k :: k in r && i <= k < n ==> r[k] == f(st, k, m[k]).value)
    decreases n - i
  {
    if i < n {
      if i !in m {
        VisitedStateless(m, i + 1, n, st, f);
      } else {
        var v := f(st, i, m[i]);
        VisitedStateless(if v.keep then m[i := v.value] else m - {i}, i + 1, n, st, f);
      }
    }
  }

  class Colo<T(0)> {
    var slots: seq<Slot<T>>
    const limited: nat
    var len: nat
    var head: nat
    ghost var free: seq<nat>

    ghost predicate Valid()
      reads this
    {
      FreeList(slots, head, free) && len + |free| == |slots|
    }

    ghost function Map(): map<nat, T>
      reads this
    {
      Contents(slots)
    }

    constructor (limit: nat)
      ensures Valid() && Map() == map[] && limited == limit && slots == [] && len == 0 && free == []
    {
      slots, len, head, limited := [], 0, END, limit;
      free := [];
    }

    /** The key the next `Insert` will return; it is never a live key. */
    method NextVacant() returns (key: nat)
      requires Valid()
      ensures key !in Map() && key == if free == [] then |slots| else free[0]
    {
      EndIsEmpty(slots, head, free);
      if free != [] {
        assert LinkAt(slots, free, 0);
      }
      key := if head == END then len else head;
    }

    /** At its limit the slab drops the item and answers 0. */
    method Insert(item: T) returns (key: nat)
      requires Valid() && |slots| + 1 < END
      modifies this
      ensures Valid() && old(|slots|) <= |slots| <= old(|slots|) + 1
      ensures limited != 0 && old(len) == limited ==> key == 0 && Map() == old(Map())
      ensures limited == 0 || old(len) != limited ==>
                && key == old(if free == [] then |slots| else free[0])
                && key !in old(Map()) && Map() == old(Map())[key := item] && len == old(len) + 1
    {
      EndIsEmpty(slots, head, free);
      if limited != 0 {
        if len == limited {
          return 0;
        }
      }
      len := len + 1;
      if head == END {
        FreeListGrow(slots, item);
        slots := slots + [Occupied(item)];
        key := len - 1;
      } else {
        key := head;
        FreeListPop(slots, free, item);
        head := slots[key].next;
        slots := slots[key := Occupied(item)];
        free := free[1..];
      }
    }

    method Remove(key: nat) returns (item: Option<T>)
      requires Valid()
      modifies this
      ensures Valid() && Map() == old(Map()) - {key} && |slots| == old(|slots|)
      ensures item == if key in old(Map()) then Some(old(Map())[key]) else None
    {
      if key >= |slots| || slots[key].Vacant? {
        assert Map() == Map() - {key};
        return None;
      }
      item := Some(slots[key].value);
      LenIsSize();
      assert key in Map();
      FreeListPush(slots, head, free, key);
      slots := slots[key := Vacant(head)];
      head := key;
      len := len - 1;
      free := [key] + free;
    }

    method Get(key: nat) returns (item: Option<T>)
      requires Valid()
      ensures item == if key in Map() then Some(Map()[key]) else None
    {
      if key >= |slots| || slots[key].Vacant? {
        return None;
      }
      return Some(slots[key].value);
    }

    method Clear()
      modifies this
      ensures Valid() && Map() == map[] && len == 0
    {
      slots, len, head := [], 0, END;
      free := [];
    }

    method Swap(a: nat, b: nat)
      requires Valid() && a in Map() && b in Map()
      modifies this
      ensures Valid() && Map() == old(Map())[a := old(Map())[b]][b := old(Map())[a]]
    {
      var x, y := slots[a].value, slots[b].value;
      FreeListKeep(slots, head, free, a, y);
      FreeListKeep(slots[a := Occupied(y)], head, free, b, x);
      slots := slots[a := Occupied(y)][b := Occupied(x)];
    }

    /** One round of `retain`. */
    method RetainOne<S>(i: nat, st: S, f: (S, nat, T) -> Verdict<S, T>) returns (next: S)
      requires Valid() && i < |slots|
      modifies this
      ensures Valid() && |slots| == old(|slots|)
      ensures i !in old(Map()) ==> next == st && Map() == old(Map())
      ensures i in old(Map()) ==>
                var v := f(st, i, old(Map())[i]);
                next == v.state && Map() == if v.keep then old(Map())[i := v.value] else old(Map()) - {i}
    {
      next := st;
      if slots[i].Occupied? {
        var v := f(st, i, slots[i].value);
        next := v.state;
        FreeListKeep(slots, head, free, i, v.value);
        slots := slots[i := Occupied(v.value)];
        if !v.keep {
          var _ := Remove(i);
        }
      }
    }

    /** `retain` with a closure that carries the state `st` from call to call. */
    method Retain<S>(st: S, f: (S, nat, T) -> Verdict<S, T>) returns (last: S)
      requires Valid()
      modifies this
      ensures Valid() && (Map(), last) == Visited(old(Map()), 0, old(|slots|), st, f)
    {
      last := st;
      var i := 0;
      while i < |slots|
        invariant 0 <= i <= |slots| && Valid() && |slots| == old(|slots|)
        invariant Visited(Map(), i, |slots|, last, f) == Visited(old(Map()), 0, |slots|, st, f)
      {
        last := RetainOne(i, last, f);
        i := i + 1;
      }
    }

    /** `len()` is the number of values. */
    lemma LenIsSize()
      requires Valid()
      ensures len == |Map()|
    {
      LenCounts(slots, head, free);
    }
  }

  /** A slab at its limit drops what is inserted and answers 0, although 0 is a live key. */
  method SecondIsDropped<T(0)>(x: T, y: T) returns (colo: Colo<T>, first: nat, second: nat)
    ensures first == second == 0 && 0 in colo.Map() && colo.Map() == map[0 := x]
  {
    colo := new Colo(1);
    first := colo.Insert(x);
    second := colo.Insert(y);
  }
}
