// Byte counts rounded to a tenth of a unit.
module Usage {

  /** 64-bit unsigned integers. Every intermediate value below has this type, so none of them wraps around. */
  newtype uint64 = n: int | 0 <= n < 0x1_0000_0000_0000_0000

  datatype Unit = KiB | MiB | GiB | TiB

  datatype Amount = Plain(bytes: uint64) | Rounded(quotient: uint64, tenth: uint64, size: Unit)

  /** The number of bytes in a unit, a power of two. */
  function Size(u: Unit): (r: uint64)
    ensures r % 2 == 0 && 1024 <= r <= 0x100_0000_0000
  {
    match u
    case KiB => 0x400
    case MiB => 0x10_0000
    case GiB => 0x4000_0000
    case TiB => 0x100_0000_0000
  }

  /** A byte count in tenths of a size. */
  function Tenths(bytes: int, size: int): int
    requires size > 0
  {
    (10 * bytes + size / 2) / size
  }

  function Distance(bytes: int, size: int, tenths: int): nat {
    var d := 10 * bytes - size * tenths;
    if d < 0 then -d else d
  }

  /** Every unit is 1024 of the one before. */
  lemma UnitsStep()
    ensures Size(KiB) == 1024 && Size(MiB) == 1024 * Size(KiB) && Size(GiB) == 1024 * Size(MiB)
    ensures Size(TiB) as int == 1024 * Size(GiB) as int
  {
  }

  /** No number of tenths is nearer to the byte count, and of two that are equally near the larger is taken. */
  lemma NearestTenth(bytes: int, size: int, other: int)
    requires size > 0 && size % 2 == 0
    ensures Distance(bytes, size, Tenths(bytes, size)) <= Distance(bytes, size, other)
    ensures other > Tenths(bytes, size) ==> Distance(bytes, size, Tenths(bytes, size)) < Distance(bytes, size, other)
  {
    var t := Tenths(bytes, size);
    Within(10 * bytes + size / 2, size);
    if other > t {
      Apart(size, other, t);
    } else if other < t {
      Apart(size, t, other);
    }
  }

  lemma Within(n: int, d: int)
    requires d > 0
    ensures d * (n / d) <= n < d * (n / d) + d
  {
  }

  lemma Apart(d: int, a: int, b: int)
    requires d > 0 && a > b
    ensures d * a >= d * b + d
  {
    assert d * (a - b - 1) >= 0;
  }

  lemma DivisionIsUnique(n: int, d: int, q: int, r: int)
    requires d > 0 && n == q * d + r && 0 <= r < d
    ensures n / d == q
  {
    var k := n / d - q;
    assert k * d == r - n % d;
  }

  /** properUnitHelper, with a shift by the exponent of the unit as a division by its size. */
  method ProperUnitHelper(bytes: uint64, u: Unit) returns (quotient: uint64, tenth: uint64)
    ensures tenth <= 9
    ensures 10 * quotient as int + tenth as int == Tenths(bytes as int, Size(u) as int)
  {
    var size := Size(u);
    quotient := bytes / size;
    var temp := bytes % size;
    temp := (temp * 10 + size / 2) / size;
    ghost var left := (10 * (bytes % size) as int + size as int / 2) % size as int;
    assert bytes as int == quotient as int * size as int + (bytes % size) as int;
    DivisionIsUnique(10 * bytes as int + size as int / 2, size as int, 10 * quotient as int + temp as int, left);
    if temp == 10 {
      temp := 0;
      quotient := quotient + 1;
    }
    tenth := temp;
  }

  /** ProperUnit: the largest unit that the byte count reaches, and the nearest tenth of it. */
  method ProperUnit(bytes: uint64) returns (r: Amount)
    ensures r.Plain? <==> bytes < 1024
    ensures r.Plain? ==> r.bytes == bytes
    ensures r.Rounded? ==> && Size(r.size) <= bytes && r.tenth <= 9
                           && (forall u: Unit :: Size(u) <= bytes ==> Size(u) <= Size(r.size))
                           && 10 * r.quotient as int + r.tenth as int == Tenths(bytes as int, Size(r.size) as int)
  {
    var q, t, size;
    if bytes >= 0x100_0000_0000 {
      size := TiB;
    } else if bytes >= 0x4000_0000 {
      size := GiB;
    } else if bytes >= 0x10_0000 {
      size := MiB;
    } else if bytes >= 0x400 {
      size := KiB;
    } else {
      return Plain(bytes);
    }
    q, t := ProperUnitHelper(bytes, size);
    r := Rounded(q, t, size);
  }

  /** Below the largest unit a count is shown as 1024.0 of its unit, and not as 1.0 of the next, exactly when it
      lies within half a tenth of that next unit. */
  lemma ShownAs1024Iff(bytes: int, size: int)
    requires size > 0 && size % 2 == 0 && size <= bytes < 1024 * size
    ensures 10 <= Tenths(bytes, size) <= 10240
    ensures Tenths(bytes, size) == 10240 <==> 10 * (1024 * size - bytes) <= size / 2
  {
    var n := 10 * bytes + size / 2;
    AtLeast(n, size, 10);
    AtLeast(n, size, 10240);
    AtLeast(n, size, 10241);
  }

  lemma AtLeast(n: int, d: int, q: int)
    requires d > 0
    ensures n / d >= q <==> n >= d * q
  {
    Within(n, d);
    if n / d > q {
      Apart(d, n / d, q);
    } else if n / d < q {
      Apart(d, q, n / d);
    }
  }
}
