/** Byte strings, the 32-bit arithmetic the Go code relies on, and the outcome of a
    step that may panic. Shared by every other module. */
module Common {

  newtype byte = x: int | 0 <= x < 256

  type Bytes = seq<byte>

  datatype Option<+T> = None | Some(value: T)

  /** What a step of the Go program ends in: a value, or a runtime panic
      (index out of range, nil dereference, an explicit `panic(err)`).
      A panic in any goroutine ends the whole process. */
  datatype Outcome<+T> = Ok(value: T) | Panic

  /** Go's conversion `uint32(x)` of a non-negative `int`, and `uint32` addition
      and subtraction: reduction modulo 2^32 (0x1_0000_0000). */
  function Wrap32(x: int): (r: int)
    ensures 0 <= r < 0x1_0000_0000
    ensures 0 <= x < 0x1_0000_0000 ==> r == x
    ensures (x - r) % 0x1_0000_0000 == 0
  {
    x % 0x1_0000_0000
  }

  function Zeros(n: nat): (r: Bytes)
    ensures |r| == n && forall i :: 0 <= i < n ==> r[i] == 0
  {
    seq(n, _ => 0)
  }

  /** `binary.BigEndian.PutUint32`: the four bytes of `n`, most significant
      first, from which `binary.BigEndian.Uint32` reads `n` back. */
  function Be32(n: int): (r: Bytes)
    requires 0 <= n < 0x1_0000_0000
    ensures |r| == 4 && ReadBe32(r) == n
  {
    var n1 := n / 0x100;
    var n2 := n1 / 0x100;
    assert n == n1 * 0x100 + n % 0x100;
    assert n1 == n2 * 0x100 + n1 % 0x100;
    assert n2 == (n2 / 0x100) * 0x100 + n2 % 0x100;
    [(n2 / 0x100) as byte, (n2 % 0x100) as byte, (n1 % 0x100) as byte, (n % 0x100) as byte]
  }

  /** `binary.BigEndian.Uint32`: the number whose big-endian bytes are `b`. */
  function ReadBe32(b: Bytes): (r: int)
    requires |b| == 4
    ensures 0 <= r < 0x1_0000_0000
  {
    ((b[0] as int * 0x100 + b[1] as int) * 0x100 + b[2] as int) * 0x100 + b[3] as int
  }

  /** Every four bytes are the big-endian encoding of the number they decode
      to: no two byte strings decode alike. */
  lemma Be32OfReadBe32(b: Bytes)
    requires |b| == 4
    ensures Be32(ReadBe32(b)) == b
  {
    var q1 := b[0] as int * 0x100 + b[1] as int;
    var q2 := q1 * 0x100 + b[2] as int;
    var n := q2 * 0x100 + b[3] as int;
    DivMod256(q2, b[3] as int);
    DivMod256(q1, b[2] as int);
    DivMod256(b[0] as int, b[1] as int);
  }

  /** Division by 256 undoes the step `q * 256 + d` of a big-endian decoding. */
  lemma DivMod256(q: int, d: int)
    requires 0 <= q && 0 <= d < 0x100
    ensures (q * 0x100 + d) / 0x100 == q && (q * 0x100 + d) % 0x100 == d
  {
  }
}
