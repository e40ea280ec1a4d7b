/**
 * The wrap-around image index shared by the photo gallery and the property card:
 * "next" steps forward and jumps from the last image to the first, "previous" steps back
 * and jumps from the first image to the last.
 */
module Cycling {

  /** The index after `i` among `len` images. */
  function NextIndex(i: int, len: int): (r: int)
    ensures 0 <= i < len ==> 0 <= r < len
    ensures 0 <= i < len ==> (r == 0 <==> i == len - 1)
  {
    if i == len - 1 then 0 else i + 1
  }

  /** The index before `i` among `len` images. */
  function PrevIndex(i: int, len: int): (r: int)
    ensures 0 <= i < len ==> 0 <= r < len
    ensures 0 <= i < len ==> (r == len - 1 <==> i == 0)
  {
    if i == 0 then len - 1 else i - 1
  }

  /** "Previous" undoes "next" and "next" undoes "previous". */
  lemma NextPrevInverse(i: int, len: int)
    requires 0 <= i < len
    ensures PrevIndex(NextIndex(i, len), len) == i
    ensures NextIndex(PrevIndex(i, len), len) == i
  {
  }

  /** `n` presses of "next". */
  function NextN(i: int, len: int, n: nat): int {
    if n == 0 then i else NextIndex(NextN(i, len, n - 1), len)
  }

  /** Before the last image, "next" pressed `n` times simply moves `n` images on. */
  lemma {:induction false} NextNNoWrap(i: int, len: int, n: nat)
    requires 0 <= i && i + n < len
    ensures NextN(i, len, n) == i + n
  {
    if n > 0 {
      NextNNoWrap(i, len, n - 1);
    }
  }

  /** Pressing "next" `a` times and then `b` times is pressing it `a + b` times. */
  lemma {:induction false} NextNCompose(i: int, len: int, a: nat, b: nat)
    ensures NextN(i, len, a + b) == NextN(NextN(i, len, a), len, b)
  {
    if b > 0 {
      NextNCompose(i, len, a, b - 1);
    }
  }

  /** Pressing "next" once per image comes back to the starting image. */
  lemma NextRoundTrip(i: int, len: int)
    requires 0 <= i < len
    ensures NextN(i, len, len) == i
  {
    NextNNoWrap(i, len, len - 1 - i);
    assert NextN(i, len, len - i) == 0;
    NextNNoWrap(0, len, i);
    NextNCompose(i, len, len - i, i);
  }
}
