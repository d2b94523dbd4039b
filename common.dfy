/** Shared value types used across the model. */
module Common {

  /** A reference that may be null in the game, or a query that may fail. */
  datatype Option<T> = None | Some(value: T)

  /** A 2D world position (the game is 2D; the z coordinate is always 0). */
  datatype Vec = Vec(x: real, y: real)

  /** `k` modulo `n`, by repeated subtraction: the position reached after `k` steps around a ring of `n` slots. */
  function Wrap(k: nat, n: nat): (r: nat)
    requires n > 0
    ensures r < n
  {
    if k < n then k else Wrap(k - n, n)
  }

  /** The ring position is Dafny's remainder `k % n`. */
  lemma {:induction false} WrapIsMod(k: nat, n: nat)
    requires n > 0
    ensures Wrap(k, n) == k % n
    decreases k
  {
    if k >= n {
      WrapIsMod(k - n, n);
      ModShift(k, n);
    }
  }

  /** A remainder in [0, n) of a decomposition `k == q * n + r` is Dafny's `k % n`. */
  lemma ModUnique(k: int, n: int, q: int, r: int)
    requires n > 0 && 0 <= r < n && k == q * n + r
    ensures k % n == r
  {
    var q', r' := k / n, k % n;
    assert k == q' * n + r';
    assert (q - q') * n == r' - r;
    if q - q' >= 1 {
      assert false;
    } else if q - q' <= -1 {
      assert false;
    }
  }

  /** Taking one full turn off leaves the remainder unchanged. */
  lemma ModShift(k: nat, n: nat)
    requires n > 0 && k >= n
    ensures (k - n) % n == k % n
  {
    var q := (k - n) / n;
    assert k - n == q * n + (k - n) % n;
    assert k == (q + 1) * n + (k - n) % n;
    ModUnique(k, n, q + 1, (k - n) % n);
  }

  /** One more step around the ring moves to the next slot, and from the last slot back to the first. */
  lemma {:induction false} WrapNext(k: nat, n: nat)
    requires n > 0
    ensures Wrap(k + 1, n) == if Wrap(k, n) + 1 == n then 0 else Wrap(k, n) + 1
    decreases k
  {
    if k >= n {
      WrapNext(k - n, n);
    }
  }

  /** The player's movement component, reduced to the `canMove` flag that the modelled core writes. */
  class PlayerController {
    var canMove: bool

    constructor ()
      ensures canMove
    {
      canMove := true;
    }
  }
}
