/**
 * Bytes and the fixed-width integers of the wire protocol.
 *
 * Every length on the wire is a Go `int32` written and read with
 * `encoding/binary` in little-endian order. Dafny integers are unbounded,
 * so the 32-bit truncation the writer performs (`int32(len(x))`) and the
 * two's-complement reading of four bytes are spelled out here.
 */
module Wire {

  type Byte = b: int | 0 <= b < 256

  const TwoTo32: int := 0x1_0000_0000
  const Int32Min: int := -0x8000_0000
  const Int32Max: int := 0x7FFF_FFFF

  /** The "package size limit": the largest body a frame may declare (100 MiB). */
  const MaxFrameLength: int := 100 * 1024 * 1024

  predicate IsInt32(v: int) {
    Int32Min <= v <= Int32Max
  }

  /** Go's conversion `int32(x)`: keep the low 32 bits, read them as two's complement. */
  function ToInt32(x: int): (r: int)
    ensures IsInt32(r)
    ensures (x - r) % TwoTo32 == 0
    ensures IsInt32(x) ==> r == x
  {
    var u := x % TwoTo32;
    if u > Int32Max then u - TwoTo32 else u
  }

  /** `binary.Write(w, binary.LittleEndian, int32(x))`: the four bytes of the low 32 bits of `x`. */
  function PutInt32(x: int): (r: seq<Byte>)
    ensures |r| == 4
  {
    var u := x % TwoTo32;
    [u % 256, (u / 256) % 256, (u / 256 / 256) % 256, (u / 256 / 256 / 256) % 256]
  }

  /** `binary.Read(r, binary.LittleEndian, &v)` for an `int32 v`: four little-endian bytes, signed. */
  function GetInt32(b: seq<Byte>): (v: int)
    requires |b| == 4
    ensures IsInt32(v)
  {
    var u: int := b[0] as int + 256 * (b[1] as int) + 65536 * (b[2] as int) + 16777216 * (b[3] as int);
    if u > Int32Max then u - TwoTo32 else u
  }

  /** `make([]byte, n)`: `n` zero bytes. */
  function Zeros(n: nat): (r: seq<Byte>)
    ensures |r| == n
    ensures forall i :: 0 <= i < n ==> r[i] == 0
  {
    seq(n, _ => 0)
  }

  /** The four bytes of a 32-bit unsigned value recombine to that value. */
  lemma {:induction false} DigitsRecombine(u: int)
    requires 0 <= u < TwoTo32
    ensures u % 256 + 256 * ((u / 256) % 256) + 65536 * ((u / 256 / 256) % 256)
            + 16777216 * ((u / 256 / 256 / 256) % 256) == u
  {
    var q1 := u / 256;
    var q2 := q1 / 256;
    var q3 := q2 / 256;
    assert u == 256 * q1 + u % 256;
    assert q1 == 256 * q2 + q1 % 256;
    assert q2 == 256 * q3 + q2 % 256;
    assert q3 < 256;
  }

  /** Reading back what was written yields the writer's `int32` conversion of the value. */
  lemma {:induction false} Int32RoundTrip(x: int)
    ensures GetInt32(PutInt32(x)) == ToInt32(x)
  {
    var u := x % TwoTo32;
    DigitsRecombine(u);
  }

  /** A value already in `int32` range survives the write/read round trip unchanged. */
  lemma Int32RoundTripExact(x: int)
    requires IsInt32(x)
    ensures GetInt32(PutInt32(x)) == x
  {
    Int32RoundTrip(x);
  }

  /** The unsigned value of four little-endian bytes. */
  function Unsigned32(b: seq<Byte>): (u: int)
    requires |b| == 4
    ensures 0 <= u < TwoTo32
  {
    b[0] as int + 256 * (b[1] as int + 256 * (b[2] as int + 256 * (b[3] as int)))
  }

  /** Four bytes read as an `int32` and written back are the same four bytes. */
  lemma {:induction false} Int32Canonical(b: seq<Byte>)
    requires |b| == 4
    ensures PutInt32(GetInt32(b)) == b
  {
    var u := Unsigned32(b);
    assert GetInt32(b) % TwoTo32 == u by {
      assert u == b[0] as int + 256 * (b[1] as int) + 65536 * (b[2] as int) + 16777216 * (b[3] as int);
    }
    var q1 := b[1] as int + 256 * (b[2] as int + 256 * (b[3] as int));
    var q2 := b[2] as int + 256 * (b[3] as int);
    assert u % 256 == b[0] && u / 256 == q1 by { DigitSplit(u, b[0], q1); }
    assert q1 % 256 == b[1] && q1 / 256 == q2 by { DigitSplit(q1, b[1], q2); }
    assert q2 % 256 == b[2] && q2 / 256 == b[3] by { DigitSplit(q2, b[2], b[3] as int); }
  }

  lemma DigitSplit(u: int, d: int, q: int)
    requires 0 <= d < 256 && u == d + 256 * q
    ensures u % 256 == d && u / 256 == q
  {
  }

  /** `int32` conversion depends only on the value modulo 2^32. */
  lemma ToInt32Congruent(x: int, y: int)
    requires (x - y) % TwoTo32 == 0
    ensures ToInt32(x) == ToInt32(y)
  {
    assert x % TwoTo32 == y % TwoTo32 by {
      var k := (x - y) / TwoTo32;
      assert x == y + TwoTo32 * k;
    }
  }

  lemma MultipleOfTwoTo32(k: int)
    ensures (TwoTo32 * k) % TwoTo32 == 0
  {
  }

  /** Congruence modulo 2^32 is preserved by addition. */
  lemma CongruentSum(x: int, x': int, y: int, y': int)
    requires (x - x') % TwoTo32 == 0 && (y - y') % TwoTo32 == 0
    ensures ((x + y) - (x' + y')) % TwoTo32 == 0
  {
    var k1 := (x - x') / TwoTo32;
    var k2 := (y - y') / TwoTo32;
    assert x - x' == TwoTo32 * k1;
    assert y - y' == TwoTo32 * k2;
    assert (x + y) - (x' + y') == TwoTo32 * (k1 + k2);
    MultipleOfTwoTo32(k1 + k2);
  }

  /**
   * Go's `int32(a + b) + 8` on `int32` operands wraps at every step, and the
   * result is the `int32` conversion of the exact sum.
   */
  lemma {:induction false} Int32SumWraps(a: int, b: int, c: int)
    requires IsInt32(c)
    ensures ToInt32(ToInt32(ToInt32(a) + ToInt32(b)) + c) == ToInt32(a + b + c)
  {
    CongruentSum(a, ToInt32(a), b, ToInt32(b));
    var s := ToInt32(ToInt32(a) + ToInt32(b));
    CongruentSum(ToInt32(a) + ToInt32(b), s, 0, 0);
    assert (a + b - s) % TwoTo32 == 0 by {
      CongruentSum(a + b, ToInt32(a) + ToInt32(b), ToInt32(a) + ToInt32(b), s);
      assert (a + b) + (ToInt32(a) + ToInt32(b)) - ((ToInt32(a) + ToInt32(b)) + s) == a + b - s;
    }
    CongruentSum(a + b, s, c, c);
    ToInt32Congruent(a + b + c, s + c);
  }
}
