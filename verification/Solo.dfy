/** A thread that runs alone: its steps repeated until its call ends. */
module Solo {

  ghost function Iterate<T(!new)>(f: T -> T, x: T, n: nat): T {
    if n == 0 then x else Iterate(f, f(x), n - 1)
  }

  /** Finitely many steps of `f` take `x` to `y`. */
  ghost predicate Leads<T(!new)>(f: T -> T, x: T, y: T) { exists n: nat :: Iterate(f, x, n) == y }

  lemma Arrived<T(!new)>(f: T -> T, x: T)
    ensures Leads(f, x, x)
  {
    assert Iterate(f, x, 0) == x;
  }

  /** One step more in front. */
  lemma Then<T(!new)>(f: T -> T, x: T, y: T)
    requires Leads(f, f(x), y)
    ensures Leads(f, x, y)
  {
    var n: nat :| Iterate(f, f(x), n) == y;
    assert Iterate(f, x, n + 1) == y;
  }

  lemma {:induction false} Joined<T(!new)>(f: T -> T, x: T, n: nat, y: T, z: T)
    requires Iterate(f, x, n) == y && Leads(f, y, z)
    ensures Leads(f, x, z)
    decreases n
  {
    if n > 0 {
      Joined(f, f(x), n - 1, y, z);
      Then(f, x, z);
    }
  }

  /** One way after another. */
  lemma Join<T(!new)>(f: T -> T, x: T, y: T, z: T)
    requires Leads(f, x, y) && Leads(f, y, z)
    ensures Leads(f, x, z)
  {
    var n: nat :| Iterate(f, x, n) == y;
    Joined(f, x, n, y, z);
  }

  /** The schedule in which thread `i` moves `n` times, always with choice `c`. */
  function Own(i: nat, c: nat, n: nat): seq<(nat, nat)> { if n == 0 then [] else [(i, c)] + Own(i, c, n - 1) }
}
