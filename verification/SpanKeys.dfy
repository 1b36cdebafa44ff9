/** Packed spans and the byte keys of the ledger index: byte order of the keys is
    numeric order of the spans, which is file order. */
module SpanKeys {
  import opened Basics

  const SIZE_RANGE: nat := 0x200_0000
  const OFFSET_RANGE: nat := 0x80_0000_0000
  const WORD_RANGE: nat := 0x1_0000_0000_0000_0000

  /** Offset in the high 39 bits, size in the low 25. */
  function Pack(offset: nat, size: nat): nat {
    offset * SIZE_RANGE + size
  }

  function OffsetOf(span: nat): nat {
    span / SIZE_RANGE
  }

  function SizeOf(span: nat): nat {
    span % SIZE_RANGE
  }

  /** Packing fits one word, loses nothing, and orders spans by offset, then size. */
  lemma PackRoundTrip(offset: nat, size: nat)
    requires offset < OFFSET_RANGE && size < SIZE_RANGE
    ensures Pack(offset, size) < WORD_RANGE && OffsetOf(Pack(offset, size)) == offset &&
            SizeOf(Pack(offset, size)) == size
  {
  }

  lemma PackOrders(o1: nat, s1: nat, o2: nat, s2: nat)
    requires s1 < SIZE_RANGE && s2 < SIZE_RANGE
    ensures Pack(o1, s1) < Pack(o2, s2) <==> o1 < o2 || (o1 == o2 && s1 < s2)
  {
  }

  /** `n` big-endian bytes of `x`. */
  function BigEndian(x: nat, n: nat): (bytes: seq<Byte>)
    ensures |bytes| == n
  {
    if n == 0 then [] else BigEndian(x / 256, n - 1) + [x % 256]
  }

  function FromBigEndian(bytes: seq<Byte>): nat {
    if bytes == [] then 0 else FromBigEndian(bytes[..|bytes| - 1]) * 256 + bytes[|bytes| - 1]
  }

  function Range(n: nat): nat {
    if n == 0 then 1 else 256 * Range(n - 1)
  }

  lemma {:induction false} BigEndianRoundTrip(x: nat, n: nat)
    requires x < Range(n)
    ensures FromBigEndian(BigEndian(x, n)) == x
  {
    if n > 0 {
      BigEndianRoundTrip(x / 256, n - 1);
      assert BigEndian(x, n)[..n - 1] == BigEndian(x / 256, n - 1);
    }
  }

  /** Byte-wise order, as the index store compares keys. */
  predicate Less(a: seq<Byte>, b: seq<Byte>) {
    if b == [] then false
    else if a == [] then true
    else a[0] < b[0] || (a[0] == b[0] && Less(a[1..], b[1..]))
  }

  lemma {:induction false} LessAppends(a: seq<Byte>, b: seq<Byte>, p: Byte, q: Byte)
    requires |a| == |b|
    ensures Less(a + [p], b + [q]) <==> Less(a, b) || (a == b && p < q)
  {
    if a == [] {
      assert Less([p], [q]) <==> p < q by {
        assert [p][1..] == [] && [q][1..] == [];
      }
      assert a + [p] == [p] && b + [q] == [q];
    } else {
      assert (a + [p])[1..] == a[1..] + [p] && (b + [q])[1..] == b[1..] + [q];
      LessAppends(a[1..], b[1..], p, q);
      assert a == [a[0]] + a[1..] && b == [b[0]] + b[1..];
    }
  }

  lemma {:induction false} LessAfterPrefix(prefix: seq<Byte>, a: seq<Byte>, b: seq<Byte>)
    ensures Less(prefix + a, prefix + b) <==> Less(a, b)
  {
    if prefix == [] {
      assert prefix + a == a && prefix + b == b;
    } else {
      assert (prefix + a)[1..] == prefix[1..] + a && (prefix + b)[1..] == prefix[1..] + b;
      LessAfterPrefix(prefix[1..], a, b);
    }
  }

  /** Big-endian byte order is numeric order. */
  lemma {:induction false} BigEndianOrder(x: nat, y: nat, n: nat)
    requires x < Range(n) && y < Range(n)
    ensures Less(BigEndian(x, n), BigEndian(y, n)) <==> x < y
  {
    if n > 0 {
      BigEndianOrder(x / 256, y / 256, n - 1);
      LessAppends(BigEndian(x / 256, n - 1), BigEndian(y / 256, n - 1), x % 256, y % 256);
      if BigEndian(x / 256, n - 1) == BigEndian(y / 256, n - 1) {
        BigEndianRoundTrip(x / 256, n - 1);
        BigEndianRoundTrip(y / 256, n - 1);
      }
    }
  }

  /** The account entry key: prefix, then the span in big-endian. */
  function AccountKey(prefix: seq<Byte>, span: nat): seq<Byte> {
    prefix + BigEndian(span, 8)
  }

  /** Under one account prefix, keys below a bound are exactly the spans below it,
      which is the order of their offsets in the file. */
  lemma AccountKeyOrder(prefix: seq<Byte>, x: nat, y: nat)
    requires x < WORD_RANGE && y < WORD_RANGE
    ensures Less(AccountKey(prefix, x), AccountKey(prefix, y)) <==> x < y
    ensures FromBigEndian(AccountKey(prefix, x)[|prefix|..]) == x
  {
    assert Range(4) == 0x1_0000_0000;
    assert Range(8) == 256 * 256 * 256 * 256 * Range(4);
    LessAfterPrefix(prefix, BigEndian(x, 8), BigEndian(y, 8));
    BigEndianOrder(x, y, 8);
    BigEndianRoundTrip(x, 8);
    assert AccountKey(prefix, x)[|prefix|..] == BigEndian(x, 8);
  }
}
