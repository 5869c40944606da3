// core/rng.py: the seeded random.Random the engine draws from. The generator
// itself is not modelled: its successive outputs are an oracle stream, so a
// state's behaviour is fixed by that stream as it is by the seed.

module CoreRng {
  import opened Base

  /** The index a draw selects among n choices. */
  function PickIndex(draw: nat, n: nat): (i: nat)
    requires n > 0
    ensures i < n
  {
    draw % n
  }

  /** The pool with slot j refilled from the last slot and the last slot dropped. */
  function Vacated<T>(pool: seq<T>, j: nat): (rest: seq<T>)
    requires j < |pool|
    ensures |rest| == |pool| - 1
    ensures forall i :: 0 <= i < |rest| ==> rest[i] == if i == j then pool[|pool| - 1] else pool[i]
  {
    pool[j := pool[|pool| - 1]][..|pool| - 1]
  }

  /** Removing the chosen element keeps a pool of distinct elements distinct,
      without the chosen one and within the old pool. */
  lemma VacatedFacts<T>(pool: seq<T>, j: nat)
    requires j < |pool| && Distinct(pool)
    ensures Distinct(Vacated(pool, j)) && pool[j] !in Vacated(pool, j)
    ensures forall x :: x in Vacated(pool, j) ==> x in pool
  {
    var rest := Vacated(pool, j);
    var n := |pool|;
    forall i | 0 <= i < |rest| ensures rest[i] != pool[j] && rest[i] in pool {
      if i == j { assert rest[i] == pool[n - 1]; } else { assert rest[i] == pool[i]; }
    }
  }

  /** sample(pool, k) by the pool method: pick i takes pool[randbelow(n - i)]
      on output pos + i and refills that slot from the end. */
  function Sampled<T(==)>(pool: seq<T>, k: nat, draws: nat -> nat, pos: nat): (r: seq<T>)
    requires k <= |pool|
    ensures |r| == k
    ensures forall x :: x in r ==> x in pool
    ensures Distinct(pool) ==> Distinct(r)
    decreases k
  {
    if k == 0 then []
    else
      var j := PickIndex(draws(pos), |pool|);
      var rest := Vacated(pool, j);
      var tail := Sampled(rest, k - 1, draws, pos + 1);
      assert forall x :: x in rest ==> x in pool by {
        forall x | x in rest ensures x in pool {
          var i :| 0 <= i < |rest| && rest[i] == x;
          if i == j { assert x == pool[|pool| - 1]; } else { assert x == pool[i]; }
        }
      }
      if Distinct(pool) then VacatedFacts(pool, j); [pool[j]] + tail else [pool[j]] + tail
  }

  class Rng {
    /** The n-th output of the generator. */
    const draws: nat -> nat
    /** How many outputs have been used. */
    var pos: nat

    constructor (draws: nat -> nat)
      ensures this.draws == draws && pos == 0
    {
      this.draws := draws;
      pos := 0;
    }

    /** The next output, without using it. */
    function Peek(): nat
      reads this
    {
      draws(pos)
    }

    /** choice(s): the element the next output selects. */
    method Choice<T>(s: seq<T>) returns (x: T)
      requires |s| > 0
      modifies this
      ensures pos == old(pos) + 1
      ensures x == s[PickIndex(old(Peek()), |s|)]
    {
      x := s[PickIndex(draws(pos), |s|)];
      pos := pos + 1;
    }

    /** sample(s, k): k distinct positions of s, one output per pick. */
    method Sample<T(==)>(s: seq<T>, k: nat) returns (r: seq<T>)
      requires k <= |s|
      modifies this
      ensures pos == old(pos) + k
      ensures r == Sampled(s, k, draws, old(pos))
    {
      r := Sampled(s, k, draws, pos);
      pos := pos + k;
    }
  }
}
