/**
 * `Math.random` as an injected oracle. An `Oracle` is the stream of values
 * the source's calls would return, each in [0, 1); a cursor `at` says how
 * many of them have been consumed, and every draw returns the next cursor,
 * in the order JavaScript evaluates the calls.
 */
module Random {

  type Unit = u: real | 0.0 <= u < 1.0

  type Oracle = nat -> Unit

  /** A value obtained from the oracle and the cursor after it. */
  datatype Draw<T> = Draw(value: T, next: nat)

  lemma ScaledUnitFloor(u: Unit, k: nat)
    requires k > 0
    ensures 0 <= (u * k as real).Floor < k
  {
    assert (1.0 - u) * k as real == k as real - u * k as real;
    assert (1.0 - u) * k as real > 0.0;
  }

  /** `Math.floor(Math.random() * n)`: an index into a list of length `n`. */
  function Index(rnd: Oracle, at: nat, n: nat): (d: Draw<nat>)
    requires n > 0
    ensures d.value < n && d.next == at + 1
  {
    ScaledUnitFloor(rnd(at), n);
    Draw((rnd(at) * n as real).Floor, at + 1)
  }

  /** `xs[Math.floor(Math.random() * xs.length)]`. */
  function Pick<T>(rnd: Oracle, at: nat, xs: seq<T>): (d: Draw<T>)
    requires |xs| > 0
    ensures d.value in xs && d.next == at + 1
  {
    var i := Index(rnd, at, |xs|);
    Draw(xs[i.value], i.next)
  }

  /** `randomInRange(min, max)`: `Math.floor(Math.random() * (max - min + 1)) + min`. */
  function RandomInRange(rnd: Oracle, at: nat, min: int, max: int): (d: Draw<int>)
    requires min <= max
    ensures min <= d.value <= max && d.next == at + 1
  {
    ScaledUnitFloor(rnd(at), max - min + 1);
    Draw((rnd(at) * (max - min + 1) as real).Floor + min, at + 1)
  }

  /**
   * Every integer of [min, max] is drawn for some value of `Math.random`:
   * the range is inclusive at both ends.
   */
  lemma {:induction false} RandomInRangeReaches(rnd: Oracle, at: nat, min: int, max: int, n: int)
    requires min <= n <= max
    requires rnd(at) == (n - min) as real / (max - min + 1) as real
    ensures RandomInRange(rnd, at, min, max).value == n
  {
    var k := (max - min + 1) as real;
    assert rnd(at) * k == (n - min) as real;
  }
}
