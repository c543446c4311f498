/** Sizes and readings that the observer and the analyzers share. */
module Hardware {

  /** The block that holds one channel's USERD fields. */
  const USERD_BYTES: nat := 512

  /** A ring entry: an opaque 64-bit value, only ever compared. */
  type Word = bv64

  const WORD_BYTES: nat := 8

  /** One ring, read twice. */
  datatype RingRead = RingRead(ordinal: nat, first: seq<Word>, second: seq<Word>)

  predicate PowerOfTwo(n: nat) {
    n == 1 || (n > 0 && n % 2 == 0 && PowerOfTwo(n / 2))
  }

  /** The bit test finds exactly the powers of two, up to the largest ring. */
  lemma BitTest(n: bv32)
    requires 0 < n <= 4096
    ensures n & (n - 1) == 0 <==> PowerOfTwo(n as nat)
  {
    var m := n as nat;
    assert n & (n - 1) == 0 <==>
           n == 1 || n == 2 || n == 4 || n == 8 || n == 16 || n == 32 || n == 64 || n == 128 ||
           n == 256 || n == 512 || n == 1024 || n == 2048 || n == 4096;
    SmallPowers(m);
  }

  lemma SmallPowers(m: nat)
    requires 0 < m <= 4096
    ensures PowerOfTwo(m) <==>
            m == 1 || m == 2 || m == 4 || m == 8 || m == 16 || m == 32 || m == 64 || m == 128 ||
            m == 256 || m == 512 || m == 1024 || m == 2048 || m == 4096
  {
    if m > 1 && m % 2 == 0 {
      SmallPowers(m / 2);
    }
  }
}
