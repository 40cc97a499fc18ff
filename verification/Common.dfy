/** Types shared by the models. */
module Common {

  datatype Option<+T> = None | Some(value: T)

  /** One octet. */
  type Byte = x: int | 0 <= x < 256

  type Bytes = seq<Byte>

  /** binary.BigEndian.Uint16. */
  function Uint16(hi: int, lo: int): int {
    hi * 256 + lo
  }

  /** binary.BigEndian.PutUint16 of uint16(n): the conversion wraps, also for negative n. */
  function PutUint16(n: int): (r: Bytes)
    ensures |r| == 2 && Uint16(r[0], r[1]) == n % 65536
  {
    [n % 65536 / 256, n % 65536 % 256]
  }

  /** The conversion keeps exactly the 16-bit numbers. */
  lemma FitsUint16(n: int)
    ensures n % 65536 == n <==> 0 <= n < 65536
  {
  }

  lemma Uint16Injective(hi: Byte, lo: Byte, hi': Byte, lo': Byte)
    requires Uint16(hi, lo) == Uint16(hi', lo')
    ensures hi == hi' && lo == lo'
  {
  }

  /** Two bytes read as a number print as the same two bytes. */
  lemma PutUint16Inverts(hi: Byte, lo: Byte)
    ensures Uint16(hi, lo) == 256 * hi + lo < 65536 && PutUint16(256 * hi + lo) == [hi, lo]
  {
    var r := PutUint16(Uint16(hi, lo));
    FitsUint16(Uint16(hi, lo));
    Uint16Injective(hi, lo, r[0], r[1]);
  }

  lemma ConcatAssociates<T>(a: seq<T>, b: seq<T>, c: seq<T>)
    ensures a + (b + c) == a + b + c
  {
  }
}
