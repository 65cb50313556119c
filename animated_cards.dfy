/** components/animated-cards.tsx: a carousel that advances one card per
    tick, ignores input while a 600 ms transition runs, and styles each card
    as active, next or other. The interval and the transition timeout are
    events delivered to the methods. */
module AnimatedCards {
  import opened Types

  datatype Direction = Horizontal | Vertical

  /** The role a card plays in the current layout. */
  datatype Role = Active | Next | Other

  /** `getCardClassName`'s three cases. */
  function CardRole(index: int, activeIndex: int, count: int): Role {
    if index == activeIndex then Active
    else if index == activeIndex + 1 || (activeIndex == count - 1 && index == 0) then Next
    else Other
  }

  /** The classes of a role. */
  function RoleClass(r: Role, d: Direction): string {
    match r
    case Active => "opacity-100 scale-100 z-20"
    case Next => if d == Horizontal then "opacity-70 scale-95 translate-x-[40%] z-10"
                 else "opacity-70 scale-95 translate-y-[40%] z-10"
    case Other => if d == Horizontal then "opacity-50 scale-90 -translate-x-[40%] z-0"
                  else "opacity-50 scale-90 -translate-y-[40%] z-0"
  }

  /** Exactly the active card is active, and the card after it (cyclically) is
      the next one. */
  lemma CardRoles(index: nat, activeIndex: nat, count: nat)
    requires index < count && activeIndex < count
    ensures CardRole(index, activeIndex, count) == Active <==> index == activeIndex
    ensures CardRole(index, activeIndex, count) == Next <==> index != activeIndex && index == (activeIndex + 1) % count
  {
  }

  /** One advance: `(prev + 1) % children.length`. */
  function Advance(i: nat, count: nat): (j: nat)
    requires count > 0
    ensures j < count
  {
    (i + 1) % count
  }

  /** k advances in a row. */
  function AdvanceBy(i: nat, k: nat, count: nat): nat
    requires count > 0
  {
    if k == 0 then i else Advance(AdvanceBy(i, k - 1, count), count)
  }

  /** A multiple of n strictly between -n and n is zero. */
  lemma SmallMultiple(k: int, n: int)
    requires n > 0 && -n < k * n < n
    ensures k == 0
  {
  }

  /** The quotient and remainder are the only ones in range. */
  lemma DivModUnique(a: int, n: int, q: int, r: int)
    requires n > 0 && 0 <= r < n && a == q * n + r
    ensures a % n == r
  {
    var q0, r0 := a / n, a % n;
    assert a == q0 * n + r0;
    assert (q - q0) * n == q * n - q0 * n;
    SmallMultiple(q - q0, n);
  }

  /** Advancing from a remainder is advancing from the number itself. */
  lemma AdvanceMod(x: nat, n: nat)
    requires n > 0
    ensures Advance(x % n, n) == (x + 1) % n
  {
    var q, r := x / n, x % n;
    if r + 1 < n {
      DivModUnique(x + 1, n, q, r + 1);
      DivModUnique(r + 1, n, 0, r + 1);
    } else {
      DivModUnique(x + 1, n, q + 1, 0);
      DivModUnique(r + 1, n, 1, 0);
    }
  }

  /** k advances move the active index k places around the cycle. */
  lemma {:induction false} AdvanceByIsSum(i: nat, k: nat, count: nat)
    requires count > 0 && i < count
    ensures AdvanceBy(i, k, count) == (i + k) % count
  {
    if k == 0 {
      DivModUnique(i, count, 0, i);
    } else {
      AdvanceByIsSum(i, k - 1, count);
      AdvanceMod(i + k - 1, count);
    }
  }

  /** After one advance per card every card has been active once and the
      carousel is back at its start. */
  lemma FullRound(i: nat, count: nat)
    requires count > 0 && i < count
    ensures AdvanceBy(i, count, count) == i
  {
    AdvanceByIsSum(i, count, count);
    DivModUnique(i + count, count, 1, i);
  }

  class Carousel {
    const count: nat
    const direction: Direction
    /** None once `% 0` has made the index NaN (a carousel with no cards). */
    var activeIndex: Option<nat>
    var isAnimating: bool
    /** The 600 ms timeouts scheduled and not yet fired. */
    var pendingReleases: nat

    ghost predicate Valid()
      reads this
    {
      (count > 0 ==> activeIndex.Some? && activeIndex.value < count)
      && (isAnimating <==> pendingReleases == 1)
      && pendingReleases <= 1
    }

    constructor (count: nat, direction: Direction)
      ensures this.count == count && this.direction == direction
      ensures activeIndex == Some(0) && !isAnimating && pendingReleases == 0
      ensures Valid()
    {
      this.count, this.direction := count, direction;
      activeIndex := Some(0);
      isAnimating, pendingReleases := false, 0;
    }

    /** `nextCard`, from the interval or a click on a card. */
    method NextCard()
      requires Valid()
      modifies this
      ensures Valid()
      ensures old(isAnimating) ==>
        activeIndex == old(activeIndex) && isAnimating && pendingReleases == old(pendingReleases)
      ensures !old(isAnimating) ==> isAnimating && pendingReleases == 1
      ensures !old(isAnimating) && count > 0 ==> activeIndex == Some(Advance(old(activeIndex).value, count))
      ensures !old(isAnimating) && count == 0 ==> activeIndex.None?
    {
      if isAnimating {
        return;
      }
      isAnimating := true;
      if count > 0 && activeIndex.Some? {
        activeIndex := Some((activeIndex.value + 1) % count);
      } else {
        activeIndex := None;
      }
      pendingReleases := pendingReleases + 1;
    }

    /** A click on dot `index`. */
    method DotClick(index: nat)
      requires Valid() && index < count
      modifies this
      ensures Valid()
      ensures old(isAnimating) ==>
        activeIndex == old(activeIndex) && isAnimating && pendingReleases == old(pendingReleases)
      ensures !old(isAnimating) ==> activeIndex == Some(index) && isAnimating && pendingReleases == 1
    {
      if isAnimating {
        return;
      }
      isAnimating := true;
      activeIndex := Some(index);
      pendingReleases := pendingReleases + 1;
    }

    /** The 600 ms timeout fires. */
    method TransitionEnd()
      requires Valid() && pendingReleases > 0
      modifies this
      ensures Valid()
      ensures !isAnimating && pendingReleases == 0 && activeIndex == old(activeIndex)
    {
      isAnimating := false;
      pendingReleases := pendingReleases - 1;
    }
  }
}
