/**
 * The rotating loading messages: while a task is active and there are
 * messages, an interval advances an index through them, wrapping round.
 */
module RotatingMessages {

  const DefaultIntervalMs: nat := 3000

  /** One interval step: the next message, back to the first after the last. */
  function Rotate(prev: nat, length: nat): (next: nat)
    requires length > 0
    ensures next < length
    ensures prev + 1 < length ==> next == prev + 1
    ensures prev + 1 == length ==> next == 0
  {
    (prev + 1) % length
  }

  /** `k` interval steps from `start`. */
  function Rotated(start: nat, length: nat, k: nat): nat
    requires length > 0
  {
    if k == 0 then start else Rotate(Rotated(start, length, k - 1), length)
  }

  /** After activation the index is 0, so after `k` steps it is `k mod length`. */
  lemma {:induction false} RotatedFromZero(length: nat, k: nat)
    requires length > 0
    ensures Rotated(0, length, k) == k % length
  {
    if k > 0 {
      RotatedFromZero(length, k - 1);
      var prev := Rotated(0, length, k - 1);
      assert Rotated(0, length, k) == (prev + 1) % length;
      ModNext(k - 1, length);
    }
  }

  /** Every message is shown in turn: the index comes back to where it was after `length` steps. */
  lemma RotationPeriod(length: nat, k: nat)
    requires length > 0
    ensures Rotated(0, length, k + length) == Rotated(0, length, k)
  {
    RotatedFromZero(length, k);
    RotatedFromZero(length, k + length);
    ModPeriod(k, length);
  }

  lemma ModNext(k: nat, length: nat)
    requires length > 0
    ensures (k + 1) % length == (k % length + 1) % length
  {
    var q, r := k / length, k % length;
    if r + 1 < length {
      ModUnique(k + 1, length, q, r + 1);
      ModUnique(r + 1, length, 0, r + 1);
    } else {
      assert k + 1 == (q + 1) * length;
      ModUnique(k + 1, length, q + 1, 0);
      ModUnique(length, length, 1, 0);
    }
  }

  lemma ModPeriod(k: nat, length: nat)
    requires length > 0
    ensures (k + length) % length == k % length
  {
    var q, r := k / length, k % length;
    assert k + length == (q + 1) * length + r;
    ModUnique(k + length, length, q + 1, r);
  }

  /** The remainder is the only value in [0, length) that differs from `k` by a multiple of `length`. */
  lemma ModUnique(k: int, length: int, q: int, r: int)
    requires length > 0 && 0 <= r < length && k == q * length + r
    ensures k % length == r
  {
    var q', r' := k / length, k % length;
    assert (q - q') * length == r' - r;
    if q > q' {
      MulAtLeast(q - q', length);
    } else if q' > q {
      assert (q' - q) * length == r - r';
      MulAtLeast(q' - q, length);
    }
  }

  lemma {:induction false} MulAtLeast(d: nat, length: nat)
    requires d >= 1
    ensures d * length >= length
  {
    if d > 1 {
      MulAtLeast(d - 1, length);
      assert d * length == (d - 1) * length + length;
    }
  }

  /**
   * The hook: the index shown, and the message count of the running
   * interval (`length` is 0 when no interval runs).
   */
  class MessageRotator {
    var index: nat
    var length: nat

    predicate Valid()
      reads this
    {
      length > 0 ==> index < length
    }

    constructor ()
      ensures index == 0 && length == 0 && Valid()
    {
      index := 0;
      length := 0;
    }

    /**
     * The effect for new `isActive` or `messages`: the previous interval is
     * cleared; inactive or without messages nothing else happens and the
     * index is kept, otherwise the index restarts at 0 and an interval runs.
     */
    method SetActive(isActive: bool, messages: seq<string>)
      modifies this
      ensures !isActive || |messages| == 0 ==> index == old(index) && length == 0
      ensures isActive && |messages| > 0 ==> index == 0 && length == |messages|
      ensures Valid()
    {
      length := 0;
      if !isActive || |messages| == 0 {
        return;
      }
      index := 0;
      length := |messages|;
    }

    method IntervalTick()
      requires Valid() && length > 0
      modifies this`index
      ensures index == Rotate(old(index), length)
      ensures Valid()
    {
      index := (index + 1) % length;
    }
  }
}
