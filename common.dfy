/** Small shared vocabulary: an optional value and the capped percentage discount
    that both the back end (ai_agents.py) and the checkout page (dashboard.tsx) compute. */
module Common {

  /** A value that may be absent: Python's `None`, JavaScript's `null`/`undefined`. */
  datatype Option<T> = None | Some(value: T)

  /** The index of the first element satisfying `p`, if any. */
  function FirstWhere<T>(rows: seq<T>, p: T -> bool): (r: Option<nat>)
    ensures r.Some? ==> r.value < |rows| && p(rows[r.value])
    ensures r.Some? ==> forall j :: 0 <= j < r.value ==> !p(rows[j])
    ensures r.None? ==> forall j :: 0 <= j < |rows| ==> !p(rows[j])
  {
    if rows == [] then None
    else if p(rows[0]) then Some(0)
    else match FirstWhere(rows[1..], p)
      case None => None
      case Some(i) => Some(i + 1)
  }

  /** An element that satisfies `p` after a run of elements that do not is the first. */
  lemma FirstWhereAt<T>(rows: seq<T>, p: T -> bool, j: nat)
    requires j < |rows| && p(rows[j])
    requires forall m :: 0 <= m < j ==> !p(rows[m])
    ensures FirstWhere(rows, p) == Some(j)
  {
  }

  /** The smaller of two amounts (`min` in Python, `Math.min` in JavaScript). */
  function MinReal(a: real, b: real): (m: real)
    ensures m <= a && m <= b
    ensures m == a || m == b
  {
    if a <= b then a else b
  }

  /** `percent` per cent of `total`, but never more than `cap`. */
  function CappedDiscount(total: real, percent: real, cap: real): (d: real)
    ensures d <= cap && d <= total * percent / 100.0
    ensures d == cap || d == total * percent / 100.0
  {
    MinReal(total * percent / 100.0, cap)
  }

  /** Scaling a non-negative total by a percentage in [0, 100] neither increases it
      nor makes it negative. */
  lemma PercentOfTotalBounds(total: real, percent: real)
    requires total >= 0.0 && 0.0 <= percent <= 100.0
    ensures 0.0 <= total * percent / 100.0 <= total
  {
    assert total * percent <= total * 100.0 by {
      assert total * (100.0 - percent) >= 0.0;
    }
  }

  /** With a non-negative total, a percentage in [0, 100] and a non-negative cap, the
      discount lies between 0 and both the total and the cap, so the amount left to pay
      lies between 0 and the total. */
  lemma CappedDiscountBounds(total: real, percent: real, cap: real)
    requires total >= 0.0 && 0.0 <= percent <= 100.0 && cap >= 0.0
    ensures 0.0 <= CappedDiscount(total, percent, cap) <= total
    ensures CappedDiscount(total, percent, cap) <= cap
    ensures 0.0 <= total - CappedDiscount(total, percent, cap) <= total
  {
    PercentOfTotalBounds(total, percent);
  }
}
