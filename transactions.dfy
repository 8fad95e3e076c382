/**
 * The transaction records returned by the bcoin indexer and the signed
 * 64-bit integer the balance is kept in (validator/btc.go).
 */
module Transactions {

  /** Go's `int64`. */
  newtype int64 = x: int | -0x8000_0000_0000_0000 <= x < 0x8000_0000_0000_0000

  const TwoTo63: int := 0x8000_0000_0000_0000
  const TwoTo64: int := 0x1_0000_0000_0000_0000

  /** The int64 that two's-complement arithmetic leaves for the mathematical value `x`. */
  function Wrap(x: int): (r: int64)
    ensures (r as int - x) % TwoTo64 == 0
    ensures -TwoTo63 <= x < TwoTo63 ==> r as int == x
  {
    ((x + TwoTo63) % TwoTo64 - TwoTo63) as int64
  }

  /**
   * Adding to a wrapped value and wrapping again is the same as wrapping the
   * exact sum: Go's `+=`/`-=` on int64 may overflow step by step, and the final
   * total is still the exact sum reduced to 64 bits.
   */
  lemma WrapAdd(x: int, d: int)
    ensures Wrap(Wrap(x) as int + d) == Wrap(x + d)
  {
    var q := (x + TwoTo63) / TwoTo64;
    assert Wrap(x) as int == x - q * TwoTo64;
    ShiftMod(x + d + TwoTo63, q);
  }

  /** Reduction modulo 2^64 ignores whole multiples of 2^64. */
  lemma ShiftMod(y: int, q: int)
    ensures (y - q * TwoTo64) % TwoTo64 == y % TwoTo64
  {
    var r := y % TwoTo64;
    var a := y / TwoTo64;
    assert y - q * TwoTo64 == (a - q) * TwoTo64 + r;
  }

  /** A Go `error` of the validator: its text. */
  datatype Error = Error(text: string)

  /** A previous output being spent: its value and the address that owned it. */
  datatype Coin = Coin(value: int64, address: string)

  datatype Input = Input(coin: Coin)

  datatype Output = Output(value: int64, address: string)

  datatype Transaction = Transaction(hash: string, inputs: seq<Input>, outputs: seq<Output>)
}
