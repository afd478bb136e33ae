/**
 * The testimonial carousel: the active index stepped forward and back around a ring of
 * `n` slides, and the stacking order that puts the active slide on top.
 */
module Testimonials {

  /** `handleNext`: `(prev + 1) % n`. */
  function Next(active: nat, n: nat): (r: nat)
    requires n > 0
    ensures r < n
  {
    (active + 1) % n
  }

  /** `handlePrev`: `(prev - 1 + n) % n`; the operand is never negative here. */
  function Prev(active: nat, n: nat): (r: nat)
    requires n > 0
    ensures r < n
  {
    (active - 1 + n) % n
  }

  /** Stepping forward wraps from the last slide to the first and otherwise adds one. */
  lemma NextCases(active: nat, n: nat)
    requires active < n
    ensures Next(active, n) == if active + 1 == n then 0 else active + 1
  {
  }

  /** Stepping back wraps from the first slide to the last and otherwise subtracts one. */
  lemma PrevCases(active: nat, n: nat)
    requires active < n
    ensures Prev(active, n) == if active == 0 then n - 1 else active - 1
  {
    if active > 0 {
      ModOfShifted(active - 1, n);
    }
  }

  /** `x + n` leaves the same remainder as `x` for a remainder-sized `x`. */
  lemma ModOfShifted(x: nat, n: nat)
    requires x < n
    ensures (x + n) % n == x
  {
  }

  /** Back after forward is where one started. */
  lemma PrevUndoesNext(active: nat, n: nat)
    requires active < n
    ensures Prev(Next(active, n), n) == active
  {
    NextCases(active, n);
    PrevCases(Next(active, n), n);
  }

  /** Forward after back is where one started. */
  lemma NextUndoesPrev(active: nat, n: nat)
    requires active < n
    ensures Next(Prev(active, n), n) == active
  {
    PrevCases(active, n);
    NextCases(Prev(active, n), n);
  }

  /** The index after `k` successive forward steps. */
  function Advance(active: nat, k: nat, n: nat): (r: nat)
    requires n > 0
  {
    if k == 0 then active else Next(Advance(active, k - 1, n), n)
  }

  /** Forward steps that do not pass the last slide add one each. */
  lemma {:induction false} AdvanceClimbs(active: nat, k: nat, n: nat)
    requires active + k < n
    ensures Advance(active, k, n) == active + k
  {
    if k > 0 {
      AdvanceClimbs(active, k - 1, n);
      NextCases(active + k - 1, n);
    }
  }

  /** `j` steps and then `k` steps are `j + k` steps. */
  lemma {:induction false} AdvanceAdds(active: nat, j: nat, k: nat, n: nat)
    requires n > 0
    ensures Advance(active, j + k, n) == Advance(Advance(active, j, n), k, n)
  {
    if k > 0 {
      AdvanceAdds(active, j, k - 1, n);
    }
  }

  /** `n` forward steps bring the carousel back to the slide it started on. */
  lemma FullTurn(active: nat, n: nat)
    requires active < n
    ensures Advance(active, n, n) == active
  {
    AdvanceClimbs(active, n - active - 1, n);
    NextCases(n - 1, n);
    assert Advance(active, n - active, n) == 0;
    AdvanceClimbs(0, active, n);
    AdvanceAdds(active, n - active, active, n);
  }

  /** `isActive(index)`. */
  predicate IsActive(index: int, active: int)
  {
    index == active
  }

  /** The stacking order: `n` for the active slide, `n - |index - active|` for the others. */
  function ZIndex(index: int, active: int, n: int): int
  {
    if IsActive(index, active) then n
    else if index >= active then n - (index - active)
    else n - (active - index)
  }

  /** On the ring, the active slide is strictly on top and every slide has a positive order. */
  lemma ZIndexOrder(index: int, active: int, n: int)
    requires 0 <= index < n && 0 <= active < n
    ensures ZIndex(index, active, n) >= 1
    ensures !IsActive(index, active) ==> ZIndex(index, active, n) < ZIndex(active, active, n)
  {
  }

  /** The carousel's state: the number of slides and the active index. */
  class Carousel {
    const count: nat
    var active: nat

    ghost predicate Valid()
      reads this
    {
      active < count
    }

    /** The first slide is active; the component reads `testimonials[active]` at once. */
    constructor (count: nat)
      requires count > 0
      ensures Valid() && this.count == count && active == 0
    {
      this.count := count;
      active := 0;
    }

    method HandleNext()
      requires Valid()
      modifies this
      ensures Valid() && active == Next(old(active), count)
    {
      active := (active + 1) % count;
    }

    method HandlePrev()
      requires Valid()
      modifies this
      ensures Valid() && active == Prev(old(active), count)
    {
      active := (active - 1 + count) % count;
    }

    /** The stacking order of slide `index` under the current active slide. */
    function ZIndexOf(index: int): (z: int)
      reads this
      requires Valid() && 0 <= index < count
      ensures 1 <= z <= count
      ensures z == count <==> IsActive(index, active)
    {
      ZIndexOrder(index, active, count);
      ZIndex(index, active, count)
    }
  }
}
