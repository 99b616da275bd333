/**
 * The source of fresh document ids. Python's `uuid.uuid4()` is modelled as one
 * process-wide sequence of draws `gen(0), gen(1), ...` in which no value repeats.
 */
module Ids {

  ghost predicate Injective(gen: nat -> string) {
    forall i: nat, j: nat :: gen(i) == gen(j) ==> i == j
  }

  /** `index` gives back the position of every draw in the sequence. */
  ghost predicate Inverts(index: string -> nat, gen: nat -> string) {
    forall k: nat :: index(gen(k)) == k
  }

  /** A sequence of draws with an inverse repeats no value. */
  lemma InvertsInjective(index: string -> nat, gen: nat -> string)
    requires Inverts(index, gen)
    ensures Injective(gen)
  {
  }

  class IdSource {
    /** The value of the n-th draw. */
    const gen: nat -> string
    /** The position of each value in `gen`; its existence is what makes the draws unique. */
    ghost const index: string -> nat
    /** How many draws have been made so far. */
    var drawn: nat

    ghost predicate Valid()
      reads this
    {
      Inverts(index, gen)
    }

    /** `id` has already been handed out: it is the draw numbered `index(id)`, made before now. */
    ghost predicate Issued(id: string)
      reads this
    {
      index(id) < drawn && gen(index(id)) == id
    }

    /** Handed out means equal to one of the draws made so far. */
    lemma IssuedDrawn(id: string)
      requires Valid()
      ensures Issued(id) <==> exists k: nat :: k < drawn && gen(k) == id
    {
      if exists k: nat :: k < drawn && gen(k) == id {
        var k: nat :| k < drawn && gen(k) == id;
        assert index(gen(k)) == k;
      }
    }

    constructor (gen: nat -> string, ghost index: string -> nat)
      requires Inverts(index, gen)
      ensures Valid() && this.gen == gen && drawn == 0
    {
      this.gen := gen;
      this.index := index;
      drawn := 0;
    }

    /** One call of `uuid4()`: a value never handed out before. */
    method Fresh() returns (id: string)
      requires Valid()
      modifies this
      ensures Valid() && drawn == old(drawn) + 1
      ensures id == gen(old(drawn))
      ensures !old(Issued(id)) && Issued(id)
      ensures forall x :: old(Issued(x)) ==> Issued(x)
    {
      id := gen(drawn);
      drawn := drawn + 1;
    }
  }
}
