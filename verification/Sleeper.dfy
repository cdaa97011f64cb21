/** The list of sleeping tickers, platform/waker/sleeper.rs. Every registered ticker
    has an id; a ticker that has been notified keeps its id but leaves the list. */
module Sleeper {
  import opened Tally

  /** The waker handed to one poll of one ticker. */
  datatype Waker = Waker(ticker: nat, poll: nat)

  datatype Roster = Roster(count: nat, wakers: seq<(nat, Waker)>, freeIds: seq<nat>)

  predicate Listed(r: Roster, id: nat) { exists k :: 0 <= k < |r.wakers| && r.wakers[k].0 == id }

  function First(ws: seq<(nat, Waker)>, id: nat): (k: nat)
    requires exists k :: 0 <= k < |ws| && ws[k].0 == id
    ensures k < |ws| && ws[k].0 == id && forall j :: 0 <= j < k ==> ws[j].0 != id
  {
    if ws[0].0 == id then 0 else
      assert exists k :: 0 <= k < |ws[1..]| && ws[1..][k].0 == id by {
        var k :| 0 <= k < |ws| && ws[k].0 == id;
        assert ws[1..][k - 1].0 == id;
      }
      First(ws[1..], id) + 1
  }

  function Last(ws: seq<(nat, Waker)>, id: nat): (k: nat)
    requires exists k :: 0 <= k < |ws| && ws[k].0 == id
    ensures k < |ws| && ws[k].0 == id && forall j :: k < j < |ws| ==> ws[j].0 != id
  {
    var n := |ws| - 1;
    if ws[n].0 == id then n else
      assert exists k :: 0 <= k < |ws[..n]| && ws[..n][k].0 == id by {
        var k :| 0 <= k < |ws| && ws[k].0 == id;
        assert ws[..n][k].0 == id;
      }
      Last(ws[..n], id)
  }

  lemma FirstIs(ws: seq<(nat, Waker)>, id: nat, k: nat)
    requires k < |ws| && ws[k].0 == id && forall j :: 0 <= j < k ==> ws[j].0 != id
    ensures First(ws, id) == k
  {
  }

  lemma LastIs(ws: seq<(nat, Waker)>, id: nat, k: nat)
    requires k < |ws| && ws[k].0 == id && forall j :: k < j < |ws| ==> ws[j].0 != id
    ensures Last(ws, id) == k
  {
  }

  // ---------------------------------------------------------------- the operations on values

  /** The id the next `insert` hands out. */
  function NextId(r: Roster): nat {
    if r.freeIds != [] then r.freeIds[|r.freeIds| - 1] else r.count + 1
  }

  function Inserted(r: Roster, w: Waker): Roster {
    Roster(r.count + 1, r.wakers + [(NextId(r), w)],
           if r.freeIds != [] then r.freeIds[..|r.freeIds| - 1] else [])
  }

  function Updated(r: Roster, id: nat, w: Waker): Roster {
    if Listed(r, id) then r.(wakers := r.wakers[First(r.wakers, id) := (id, w)])
    else r.(wakers := r.wakers + [(id, w)])
  }

  function Removed(r: Roster, id: nat): Roster
    requires r.count > 0
  {
    Roster(r.count - 1, if Listed(r, id) then Cut(r.wakers, Last(r.wakers, id)) else r.wakers, r.freeIds + [id])
  }

  predicate IsNotified(r: Roster) { r.count == 0 || r.count > |r.wakers| }

  /** What `notify` pops: a waker, only when every registered ticker is listed. */
  function Popped(r: Roster): Option<(nat, Waker)> {
    if |r.wakers| == r.count && r.wakers != [] then Some(r.wakers[|r.wakers| - 1]) else None
  }

  function Notified(r: Roster): Roster {
    if |r.wakers| == r.count && r.wakers != [] then r.(wakers := r.wakers[..|r.wakers| - 1]) else r
  }

  // ---------------------------------------------------------------- the class

  class Sleepers {
    var count: nat
    var wakers: seq<(nat, Waker)>
    var freeIds: seq<nat>

    function Value(): Roster
      reads this
    {
      Roster(count, wakers, freeIds)
    }

    constructor ()
      ensures Value() == Roster(0, [], [])
    {
      count := 0;
      wakers := [];
      freeIds := [];
    }

    method Insert(w: Waker) returns (id: nat)
      modifies this
      ensures id == NextId(old(Value())) && Value() == Inserted(old(Value()), w)
    {
      if |freeIds| > 0 {
        id := freeIds[|freeIds| - 1];
        freeIds := freeIds[..|freeIds| - 1];
      } else {
        id := count + 1;
      }
      count := count + 1;
      wakers := wakers + [(id, w)];
    }

    method Update(id: nat, w: Waker) returns (added: bool)
      modifies this
      ensures added == !Listed(old(Value()), id) && Value() == Updated(old(Value()), id, w)
    {
      var i := 0;
      while i < |wakers|
        invariant 0 <= i <= |wakers| && Value() == old(Value())
        invariant forall j :: 0 <= j < i ==> wakers[j].0 != id
      {
        if wakers[i].0 == id {
          FirstIs(wakers, id, i);
          if wakers[i].1 != w {
            wakers := wakers[i := (id, w)];
          } else {
            assert wakers == wakers[i := (id, w)];
          }
          return false;
        }
        i := i + 1;
      }
      wakers := wakers + [(id, w)];
      return true;
    }

    method Remove(id: nat) returns (notified: bool)
      requires count > 0
      modifies this
      ensures notified == !Listed(old(Value()), id) && Value() == Removed(old(Value()), id)
    {
      count := count - 1;
      freeIds := freeIds + [id];
      var i := |wakers|;
      while i > 0
        invariant 0 <= i <= |wakers| && wakers == old(wakers)
        invariant count == old(count) - 1 && freeIds == old(freeIds) + [id]
        invariant forall j :: i <= j < |wakers| ==> wakers[j].0 != id
      {
        i := i - 1;
        if wakers[i].0 == id {
          LastIs(wakers, id, i);
          wakers := wakers[..i] + wakers[i + 1..];
          return false;
        }
      }
      return true;
    }

    method Notify() returns (w: Option<Waker>)
      modifies this
      ensures w == (if Popped(old(Value())).Some? then Some(Popped(old(Value())).value.1) else None)
      ensures Value() == Notified(old(Value()))
    {
      w := None;
      if |wakers| == count && |wakers| > 0 {
        w := Some(wakers[|wakers| - 1].1);
        wakers := wakers[..|wakers| - 1];
      }
    }
  }

  // ---------------------------------------------------------------- ids

  /** The ids in use are distinct from the free ones and together they fill 1 .. total;
      `owners` says which ticker holds which id, and only holders are listed. */
  ghost predicate WellKept(r: Roster, owners: map<nat, nat>) {
    && r.count == |owners|
    && (forall x: nat :: x in owners || x in r.freeIds <==> 1 <= x <= r.count + |r.freeIds|)
    && (forall x :: x in r.freeIds ==> x !in owners)
    && (forall j, k :: 0 <= j < k < |r.freeIds| ==> r.freeIds[j] != r.freeIds[k])
    && ListKept(r.wakers, owners)
  }

  ghost predicate ListKept(ws: seq<(nat, Waker)>, owners: map<nat, nat>) {
    && (forall j, k :: 0 <= j < k < |ws| ==> ws[j].0 != ws[k].0)
    && (forall k :: 0 <= k < |ws| ==> ws[k].0 in owners && owners[ws[k].0] == ws[k].1.ticker)
  }

  /** `insert` never hands out an id that is in use. */
  lemma InsertKeeps(r: Roster, owners: map<nat, nat>, w: Waker)
    requires WellKept(r, owners)
    ensures NextId(r) !in owners && NextId(r) > 0
    ensures WellKept(Inserted(r, w), owners[NextId(r) := w.ticker])
  {
    FreshId(r, owners);
    InsertedIds(r, owners, w);
    var o := owners[NextId(r) := w.ticker];
    assert o.Keys == owners.Keys + {NextId(r)};
    assert |o| == |o.Keys| && |owners| == |owners.Keys|;
  }

  lemma FreshId(r: Roster, owners: map<nat, nat>)
    requires WellKept(r, owners)
    ensures NextId(r) !in owners && NextId(r) > 0
  {
    if r.freeIds != [] {
      assert NextId(r) in r.freeIds;
    }
  }

  /** Taking an id off the free list, or a new one behind all others, keeps 1 .. total filled. */
  lemma InsertedIds(r: Roster, owners: map<nat, nat>, w: Waker)
    requires WellKept(r, owners)
    ensures var s, o := Inserted(r, w), owners[NextId(r) := w.ticker];
            && (forall x: nat :: x in o || x in s.freeIds <==> 1 <= x <= s.count + |s.freeIds|)
            && (forall x :: x in s.freeIds ==> x !in o)
  {
    var id, s := NextId(r), Inserted(r, w);
    FreshId(r, owners);
    if r.freeIds != [] {
      assert r.freeIds == s.freeIds + [id];
      assert id in r.freeIds && id !in s.freeIds;
      assert forall x :: x in r.freeIds <==> x == id || x in s.freeIds;
    }
  }

  lemma UpdateKeeps(r: Roster, owners: map<nat, nat>, id: nat, w: Waker)
    requires WellKept(r, owners) && id in owners && owners[id] == w.ticker
    ensures WellKept(Updated(r, id, w), owners) && Listed(Updated(r, id, w), id)
    ensures (id, w) in Updated(r, id, w).wakers
    ensures forall e: (nat, Waker) :: e.0 != id ==> (e in Updated(r, id, w).wakers <==> e in r.wakers)
  {
    var s := Updated(r, id, w);
    var at := if Listed(r, id) then First(r.wakers, id) else |r.wakers|;
    assert s.wakers[at] == (id, w);
    assert forall k :: 0 <= k < |r.wakers| && k != at ==> s.wakers[k] == r.wakers[k];
    forall e: (nat, Waker) | e.0 != id
      ensures e in s.wakers <==> e in r.wakers
    {
      if e in r.wakers {
        var k :| 0 <= k < |r.wakers| && r.wakers[k] == e;
        assert s.wakers[k] == e;
      }
    }
  }

  lemma RemoveKeeps(r: Roster, owners: map<nat, nat>, id: nat)
    requires WellKept(r, owners) && id in owners
    ensures r.count > 0
    ensures WellKept(Removed(r, id), owners - {id}) && !Listed(Removed(r, id), id)
    ensures |Removed(r, id).wakers| == |r.wakers| - Bit(Listed(r, id))
    ensures forall e: (nat, Waker) :: e.0 != id ==> (e in Removed(r, id).wakers <==> e in r.wakers)
  {
    var o := owners - {id};
    assert o.Keys == owners.Keys - {id};
    assert |o| == |o.Keys| && |owners| == |owners.Keys|;
    var s := Removed(r, id);
    assert forall x :: x in s.freeIds <==> x in r.freeIds || x == id;
    if Listed(r, id) {
      CutKeeps(r.wakers, owners, Last(r.wakers, id));
    }
  }

  lemma CutKeeps(ws: seq<(nat, Waker)>, owners: map<nat, nat>, k: nat)
    requires ListKept(ws, owners) && k < |ws|
    ensures var cut := Cut(ws, k);
            && ListKept(cut, owners - {ws[k].0})
            && (forall j :: 0 <= j < |cut| ==> cut[j].0 != ws[k].0)
            && forall e: (nat, Waker) :: e.0 != ws[k].0 ==> (e in cut <==> e in ws)
  {
    var cut := Cut(ws, k);
    assert forall j :: 0 <= j < |cut| ==> cut[j] == ws[if j < k then j else j + 1];
    forall e: (nat, Waker) | e.0 != ws[k].0
      ensures e in cut <==> e in ws
    {
      if e in ws {
        var j :| 0 <= j < |ws| && ws[j] == e;
        assert cut[if j < k then j else j - 1] == e;
      }
    }
  }

  /** Popping takes the waker of a registered ticker, which then is not listed. */
  lemma NotifyKeeps(r: Roster, owners: map<nat, nat>)
    requires WellKept(r, owners)
    ensures WellKept(Notified(r), owners)
    ensures Popped(r).Some? ==>
              && Popped(r).value in r.wakers && !Listed(Notified(r), Popped(r).value.0)
              && Popped(r).value.0 in owners && owners[Popped(r).value.0] == Popped(r).value.1.ticker
              && r.count > |Notified(r).wakers|
    ensures forall e: (nat, Waker) :: Popped(r) != Some(e) ==> (e in Notified(r).wakers <==> e in r.wakers)
  {
    if Popped(r).Some? {
      assert r.wakers == Notified(r).wakers + [Popped(r).value];
    }
  }

  /** Last in, first out: the ticker listed last is the one popped, and the others stay. */
  lemma LatestIsPopped(r: Roster, w: Waker)
    requires |r.wakers| == r.count
    ensures Popped(Inserted(r, w)) == Some((NextId(r), w)) && Notified(Inserted(r, w)).wakers == r.wakers
  {
  }

  /** Nobody is popped exactly if nobody sleeps or somebody has been notified already. */
  lemma PoppedUnlessNotified(r: Roster, owners: map<nat, nat>)
    requires WellKept(r, owners)
    ensures Popped(r).None? <==> IsNotified(r)
  {
    ListedBound(r, owners);
  }

  /** When more tickers are registered than listed, some registered ticker is not listed. */
  lemma SomeUnlisted(r: Roster, owners: map<nat, nat>) returns (id: nat)
    requires WellKept(r, owners) && r.count > |r.wakers|
    ensures id in owners && !Listed(r, id)
  {
    IdsBound(r.wakers);
    assert |owners| == |owners.Keys|;
    if owners.Keys <= Ids(r.wakers) {
      SubsetSize(owners.Keys, Ids(r.wakers));
    }
    id :| id in owners && id !in Ids(r.wakers);
  }

  /** No more tickers are listed than registered. */
  lemma ListedBound(r: Roster, owners: map<nat, nat>)
    requires WellKept(r, owners)
    ensures |r.wakers| <= r.count
  {
    IdsDistinct(r.wakers);
    assert |owners| == |owners.Keys|;
    SubsetSize(Ids(r.wakers), owners.Keys);
  }

  ghost function Ids(ws: seq<(nat, Waker)>): set<nat> { set k | 0 <= k < |ws| :: ws[k].0 }

  lemma {:induction false} IdsBound(ws: seq<(nat, Waker)>)
    ensures |Ids(ws)| <= |ws|
  {
    if ws != [] {
      var n := |ws| - 1;
      IdsBound(ws[..n]);
      assert Ids(ws) == Ids(ws[..n]) + {ws[n].0};
    }
  }

  lemma {:induction false} IdsDistinct(ws: seq<(nat, Waker)>)
    requires forall j, k :: 0 <= j < k < |ws| ==> ws[j].0 != ws[k].0
    ensures |Ids(ws)| == |ws|
  {
    if ws != [] {
      var n := |ws| - 1;
      IdsDistinct(ws[..n]);
      assert Ids(ws) == Ids(ws[..n]) + {ws[n].0};
      assert ws[n].0 !in Ids(ws[..n]);
    }
  }

  lemma {:induction false} SubsetSize(s: set<nat>, t: set<nat>)
    requires s <= t
    ensures |s| <= |t|
  {
    if s != {} {
      var x :| x in s;
      SubsetSize(s - {x}, t - {x});
    }
  }
}
